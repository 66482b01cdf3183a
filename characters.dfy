/** The character list: cards over the loaded characters, the request address for a page,
    and the controller whose fields the component updates as pages load, searches run and
    the modal opens and closes. */
module Characters {
  import opened Wrappers
  import Text
  import QueryString
  import opened Catalog

  /** The page size the controller asks for. */
  const Limit: nat := 20

  const StoriesOnCard: nat := 3

  const NoDescription: string := "Sem descrição disponível."

  const ProxyPath: string := "/api/characters"

  datatype Card = Card(name: string, description: string, stories: Option<Listing>)

  /** One card of the grid: the name, the description or a fixed fallback text, and, when the
      character has stories, the first three story names with the overflow count. */
  function RenderCard(c: Character): (card: Card)
    ensures card.name == c.name
    ensures c.description != "" ==> card.description == c.description
    ensures c.description == "" ==> card.description == NoDescription
    ensures card.stories.Some? <==> |c.stories| > 0
    ensures card.stories.Some? ==> Shows(card.stories.value, StoryNames(c.stories), StoriesOnCard)
  {
    Card(
      c.name,
      if c.description != "" then c.description else NoDescription,
      if |c.stories| > 0 then Some(Truncate(StoryNames(c.stories), StoriesOnCard)) else None)
  }

  /** The pairs a page request is meant to carry: limit 20, the requested offset, and the
      search term only when it is non-empty. */
  function RequestPairs(newOffset: nat, search: string): seq<QueryString.Pair> {
    [("limit", "20"), ("offset", Text.Decimal(newOffset))] + (if search != "" then [("search", search)] else [])
  }

  /** The query part of a page request: those pairs, written `key=value` and joined by `&`.
      The search term is written as it is, with no encoding. */
  function Query(newOffset: nat, search: string): (q: string)
    ensures q == QueryString.Join(RequestPairs(newOffset, search))
  {
    var a := QueryString.Field("limit", Text.Decimal(Limit));
    var b := QueryString.Field("offset", Text.Decimal(newOffset));
    var q := a + "&" + b + (if search != "" then "&" + QueryString.Field("search", search) else "");
    assert Text.Decimal(Limit) == "20" by {
      assert Text.Decimal(2) == "2";
    }
    var ps := RequestPairs(newOffset, search);
    assert ps[1..][1..] == ps[2..];
    if search != "" then
      var c := QueryString.Field("search", search);
      assert ps[2..] == [("search", search)];
      assert QueryString.Join(ps[2..]) == c;
      assert ps[1..] == [("offset", Text.Decimal(newOffset)), ("search", search)];
      assert QueryString.Join(ps[1..]) == b + "&" + c;
      assert QueryString.Join(ps) == a + "&" + (b + "&" + c);
      assert a + "&" + b + ("&" + c) == a + "&" + (b + "&" + c);
      q
    else
      q
  }

  /** A term the proxy reads back unchanged from the raw query: none of the characters that
      separate pairs, start a fragment or are decoded, none of the tab and line breaks the URL
      parser deletes, and no final space or control character, which the URL parser strips
      from the end of the address. */
  predicate QuerySafe(s: string) {
    && (forall i :: 0 <= i < |s| ==>
          s[i] != '&' && s[i] != '#' && s[i] != '%' && s[i] != '+' && s[i] != '\t' && s[i] != '\n' && s[i] != '\r')
    && (|s| > 0 ==> s[|s| - 1] > ' ')
  }

  /** The address `loadCharacters` fetches: the proxy path, `?`, and a query that reads back
      as the intended pairs whenever the term is one the proxy can read back. */
  function RequestUrl(newOffset: nat, search: string): (url: string)
    ensures |url| > |ProxyPath| + 1 && url[..|ProxyPath| + 1] == ProxyPath + "?"
    ensures QuerySafe(search) ==> QueryString.Parse(url[|ProxyPath| + 1..]) == RequestPairs(newOffset, search)
  {
    var q := Query(newOffset, search);
    var url := ProxyPath + "?" + q;
    assert url[|ProxyPath| + 1..] == q;
    if QuerySafe(search) then
      QueryReadsBack(newOffset, search);
      url
    else
      url
  }

  lemma RequestPairsPlain(newOffset: nat, search: string)
    requires QuerySafe(search)
    ensures forall i :: 0 <= i < |RequestPairs(newOffset, search)| ==> QueryString.Plain(RequestPairs(newOffset, search)[i])
  {
  }

  /** Read back as a query, the request carries limit 20, the requested offset, and the search
      term exactly when it is non-empty. */
  lemma QueryReadsBack(newOffset: nat, search: string)
    requires QuerySafe(search)
    ensures QueryString.Parse(Query(newOffset, search))
      == [("limit", "20"), ("offset", Text.Decimal(newOffset))] + (if search != "" then [("search", search)] else [])
  {
    RequestPairsPlain(newOffset, search);
    QueryString.ParseJoin(RequestPairs(newOffset, search));
  }

  /** Because the term is not encoded, an `&` inside it cuts it: the proxy reads the part
      before it as the search and the rest as further pairs (searching "a&b" sends the search
      "a" and a stray key "b"). */
  lemma AmpersandSplitsTerm(newOffset: nat, before: string, after: string)
    requires before != "" && QuerySafe(before) && QuerySafe(after)
    ensures QueryString.Parse(Query(newOffset, before + "&" + after))
      == RequestPairs(newOffset, before) + QueryString.Parse(after)
  {
    var term := before + "&" + after;
    assert Query(newOffset, term) == Query(newOffset, before) + "&" + after;
    QueryString.ParseJoinedAt(Query(newOffset, before), after);
    QueryReadsBack(newOffset, before);
  }

  /** How a successful page joins the list: a search result replaces it, any other page is
      appended after what is there, in order and without removing duplicates. */
  function Merge(current: seq<Character>, page: seq<Character>, search: string): (r: seq<Character>)
    ensures search != "" ==> r == page
    ensures search == "" ==> |r| == |current| + |page| && r[..|current|] == current && r[|current|..] == page
  {
    if search != "" then page else current + page
  }

  /** The result of a page request after the network call: the page received, or a failure
      (a response that is not ok, or an error thrown while fetching or decoding). */
  datatype LoadOutcome = Loaded(page: seq<Character>) | LoadFailed

  /** The sentinel `div` rendered below the card grid, which the scroll observer watches:
      present while more pages are expected and no search is running or entered. */
  predicate SentinelShown(hasMore: bool, isSearching: bool, searchTerm: string) {
    hasMore && !isSearching && searchTerm == ""
  }

  /** The scroll observer is attached: the effect does not return early. Whenever it is
      attached, the sentinel it observes is rendered. */
  predicate ObserverArmed(isSearching: bool, isLoadingMore: bool, hasMore: bool, searchTerm: string): (armed: bool)
    ensures armed ==> SentinelShown(hasMore, isSearching, searchTerm)
  {
    !(isSearching || isLoadingMore || !hasMore || searchTerm != "")
  }

  class CharacterList {
    var characters: seq<Character>
    var searchTerm: string
    var isSearching: bool
    var selectedCharacter: Option<Character>
    var isModalOpen: bool
    var isLoadingMore: bool
    var hasMore: bool
    var offset: nat

    /** The component's initial state, before its mount effect runs. */
    constructor ()
      ensures characters == [] && searchTerm == "" && offset == 0 && hasMore
      ensures !isSearching && !isLoadingMore
      ensures selectedCharacter == None && !isModalOpen
    {
      characters := [];
      searchTerm := "";
      isSearching := false;
      selectedCharacter := None;
      isModalOpen := false;
      isLoadingMore := false;
      hasMore := true;
      offset := 0;
    }

    /** The state after a page request for `newOffset` and `search` completed with `outcome`,
        starting from the list `before` and the offset `beforeOffset`. */
    ghost predicate Settled(before: seq<Character>, beforeOffset: nat, newOffset: nat, search: string, outcome: LoadOutcome)
      reads this
    {
      && !isSearching && !isLoadingMore
      && match outcome
         case Loaded(page) =>
           characters == Merge(before, page, search) && offset == newOffset + |page| && hasMore == (|page| == Limit)
         case LoadFailed =>
           characters == before && offset == beforeOffset && !hasMore
    }

    /** The first half of `loadCharacters`: raise the flag that matches the kind of request and
        return the address to fetch. */
    method BeginLoad(newOffset: nat, search: string) returns (url: string)
      modifies this
      ensures url == RequestUrl(newOffset, search)
      ensures isSearching == (old(isSearching) || search != "")
      ensures isLoadingMore == (old(isLoadingMore) || (search == "" && newOffset > 0))
      ensures characters == old(characters) && offset == old(offset) && hasMore == old(hasMore)
      ensures searchTerm == old(searchTerm) && selectedCharacter == old(selectedCharacter) && isModalOpen == old(isModalOpen)
    {
      if search != "" {
        isSearching := true;
      } else if newOffset > 0 {
        isLoadingMore := true;
      }
      url := RequestUrl(newOffset, search);
    }

    /** The second half of `loadCharacters`: apply the outcome of the request begun for
        `newOffset` and `search`, then clear both loading flags. */
    method CompleteLoad(newOffset: nat, search: string, outcome: LoadOutcome)
      modifies this
      ensures Settled(old(characters), old(offset), newOffset, search, outcome)
      ensures searchTerm == old(searchTerm) && selectedCharacter == old(selectedCharacter) && isModalOpen == old(isModalOpen)
    {
      match outcome {
        case Loaded(page) =>
          characters := Merge(characters, page, search);
          offset := newOffset + |page|;
          hasMore := |page| == Limit;
        case LoadFailed =>
          hasMore := false;
      }
      isSearching := false;
      isLoadingMore := false;
    }

    /** `loadCharacters(newOffset, search)` run to completion. */
    method LoadCharacters(newOffset: nat, search: string, outcome: LoadOutcome) returns (url: string)
      modifies this
      ensures url == RequestUrl(newOffset, search)
      ensures Settled(old(characters), old(offset), newOffset, search, outcome)
      ensures searchTerm == old(searchTerm) && selectedCharacter == old(selectedCharacter) && isModalOpen == old(isModalOpen)
    {
      url := BeginLoad(newOffset, search);
      CompleteLoad(newOffset, search, outcome);
    }

    /** The mount effect: load the first unfiltered page. */
    method Mount(outcome: LoadOutcome) returns (url: string)
      modifies this
      ensures url == RequestUrl(0, "")
      ensures Settled(old(characters), old(offset), 0, "", outcome)
      ensures searchTerm == old(searchTerm) && selectedCharacter == old(selectedCharacter) && isModalOpen == old(isModalOpen)
    {
      url := LoadCharacters(0, "", outcome);
    }

    /** `handleSearchChange`: the input's value becomes the search term. */
    method SetSearchTerm(value: string)
      modifies this
      ensures searchTerm == value
      ensures characters == old(characters) && offset == old(offset) && hasMore == old(hasMore)
      ensures isSearching == old(isSearching) && isLoadingMore == old(isLoadingMore)
      ensures selectedCharacter == old(selectedCharacter) && isModalOpen == old(isModalOpen)
    {
      searchTerm := value;
    }

    /** `searchCharacters(term)`: a blank term resets the list and loads the first unfiltered
        page; any other term loads the first page filtered by it, replacing the list. */
    method SearchCharacters(term: string, outcome: LoadOutcome) returns (url: string)
      modifies this
      ensures Text.Trim(term) == "" ==> url == RequestUrl(0, "") && Settled([], 0, 0, "", outcome)
      ensures Text.Trim(term) != "" ==> url == RequestUrl(0, term) && Settled(old(characters), old(offset), 0, term, outcome)
      ensures searchTerm == old(searchTerm) && selectedCharacter == old(selectedCharacter) && isModalOpen == old(isModalOpen)
    {
      if Text.Trim(term) == "" {
        characters := [];
        offset := 0;
        hasMore := true;
        url := LoadCharacters(0, "", outcome);
      } else {
        isSearching := true;
        url := LoadCharacters(0, term, outcome);
      }
    }

    /** The debounce timer fired: a non-empty term is searched for, an empty one does nothing. */
    method DebounceElapsed(outcome: LoadOutcome) returns (url: Option<string>)
      modifies this
      ensures old(searchTerm) == "" ==> url == None
      ensures old(searchTerm) == "" ==> characters == old(characters) && offset == old(offset) && hasMore == old(hasMore)
      ensures old(searchTerm) == "" ==> isSearching == old(isSearching) && isLoadingMore == old(isLoadingMore)
      ensures old(searchTerm) != "" && Text.Trim(old(searchTerm)) == "" ==>
        url == Some(RequestUrl(0, "")) && Settled([], 0, 0, "", outcome)
      ensures Text.Trim(old(searchTerm)) != "" ==>
        url == Some(RequestUrl(0, old(searchTerm))) && Settled(old(characters), old(offset), 0, old(searchTerm), outcome)
      ensures searchTerm == old(searchTerm) && selectedCharacter == old(selectedCharacter) && isModalOpen == old(isModalOpen)
    {
      if searchTerm != "" {
        var u := SearchCharacters(searchTerm, outcome);
        url := Some(u);
      } else {
        url := None;
      }
    }

    /** `clearSearch`: empty the term and the list, and load the first unfiltered page. */
    method ClearSearch(outcome: LoadOutcome) returns (url: string)
      modifies this
      ensures searchTerm == ""
      ensures url == RequestUrl(0, "") && Settled([], 0, 0, "", outcome)
      ensures selectedCharacter == old(selectedCharacter) && isModalOpen == old(isModalOpen)
    {
      searchTerm := "";
      characters := [];
      offset := 0;
      hasMore := true;
      url := LoadCharacters(0, "", outcome);
    }

    function Armed(): bool
      reads this
    {
      ObserverArmed(isSearching, isLoadingMore, hasMore, searchTerm)
    }

    /** The observer reported the sentinel's visibility: when it is attached and the sentinel
        intersects, the next unfiltered page is loaded from the current offset. */
    method SentinelVisible(isIntersecting: bool, outcome: LoadOutcome) returns (url: Option<string>)
      modifies this
      ensures url.Some? <==> isIntersecting && old(Armed())
      ensures url.Some? ==> url.value == RequestUrl(old(offset), "") && Settled(old(characters), old(offset), old(offset), "", outcome)
      ensures url.None? ==> characters == old(characters) && offset == old(offset) && hasMore == old(hasMore)
      ensures url.None? ==> isSearching == old(isSearching) && isLoadingMore == old(isLoadingMore)
      ensures searchTerm == old(searchTerm) && selectedCharacter == old(selectedCharacter) && isModalOpen == old(isModalOpen)
    {
      if Armed() && isIntersecting && hasMore {
        var u := LoadCharacters(offset, "", outcome);
        url := Some(u);
      } else {
        url := None;
      }
    }

    /** `handleCharacterClick`: select the character and open the modal. */
    method SelectCharacter(c: Character)
      modifies this
      ensures selectedCharacter == Some(c) && isModalOpen
      ensures characters == old(characters) && offset == old(offset) && hasMore == old(hasMore)
      ensures isSearching == old(isSearching) && isLoadingMore == old(isLoadingMore) && searchTerm == old(searchTerm)
    {
      selectedCharacter := Some(c);
      isModalOpen := true;
    }

    /** The modal's close handler: only the open flag drops; the selection stays. */
    method CloseModal()
      modifies this
      ensures !isModalOpen && selectedCharacter == old(selectedCharacter)
      ensures characters == old(characters) && offset == old(offset) && hasMore == old(hasMore)
      ensures isSearching == old(isSearching) && isLoadingMore == old(isLoadingMore) && searchTerm == old(searchTerm)
    {
      isModalOpen := false;
    }
  }

  /** The worked paging case: a full first page of 20 leaves offset 20 with more to come, and a
      following page of 7 leaves offset 27 with nothing more, 27 characters held in order. */
  method PagingExample(first: seq<Character>, second: seq<Character>)
    returns (offset1: nat, hasMore1: bool, offset2: nat, hasMore2: bool, held: seq<Character>)
    requires |first| == 20 && |second| == 7
    ensures offset1 == 20 && hasMore1
    ensures offset2 == 27 && !hasMore2
    ensures held == first + second
  {
    var list := new CharacterList();
    var firstUrl := list.Mount(Loaded(first));
    offset1, hasMore1 := list.offset, list.hasMore;
    assert list.Armed();
    var url := list.SentinelVisible(true, Loaded(second));
    offset2, hasMore2, held := list.offset, list.hasMore, list.characters;
  }

  /** A failed request after a loaded page keeps the list and the offset and stops paging. */
  method FailureExample(first: seq<Character>) returns (held: seq<Character>, offset: nat, hasMore: bool)
    requires |first| == 20
    ensures held == first && offset == 20 && !hasMore
  {
    var list := new CharacterList();
    var firstUrl := list.Mount(Loaded(first));
    var url := list.SentinelVisible(true, LoadFailed);
    held, offset, hasMore := list.characters, list.offset, list.hasMore;
  }
}
