# Marvel character catalogue — a Dafny model

The application lists Marvel characters page by page, lets the user search them by name
prefix, and opens a detail modal for a clicked character. Requests go through a server-side
proxy that signs them for the Marvel API. This project models the three pieces that carry
logic and proves what they do:

- **The list controller** (`Characters` module, class `CharacterList`). Its fields are the
  component's state: the loaded characters, search term, offset, `hasMore`, the two loading
  flags, and the selected character with the modal flag. `loadCharacters` is split into
  `BeginLoad`, which raises a flag and returns the request address, and `CompleteLoad`, which
  applies the request's outcome. The network call is an outcome parameter: a page or a
  failure. Search, clearing the search, the debounce timer firing, the scroll sentinel
  becoming visible, and opening and closing the modal are methods too. Each method states
  the whole new state.
- **The display rules** (`Catalog`, `CharacterModal`, and `RenderCard` in `Characters`).
  These are pure functions from a character to what is shown. A category shows a capped
  prefix of its names, plus a "... e mais N" line when names were cut off. The caps are 10
  for stories, 5 for comics, 5 for series and 3 on a card. The modal also has conditional
  sections and the image address with its placeholder.
- **The proxy** (`CharactersRoute`). This is a pure map from the incoming query, the two
  environment keys and the clock to an error response or to the ordered upstream parameter
  list. The upstream answer is then relayed. `md5` and the upstream call are function
  parameters.

`Text` holds the JavaScript string behaviour the code depends on: number rendering and
`trim`. `QueryString` is a reference reading of a query string as ordered pairs. With it,
`Characters.QueryReadsBack` and `RequestFlow.PageRequestReachesUpstream` follow a page
request from the address the controller writes to the parameters the proxy sends upstream.

Some behaviour of the code is worth knowing:

- The controller puts the search term into the address raw. A term containing `&` is cut
  there: `AmpersandSplitsTerm` shows the proxy reads only the part before it as the search.
- `hasMore` is `|page| == 20` exactly. Any other page length stops paging, a longer page
  included.
- The list is never capped at the page size. An appended page adds its full length.
- A whitespace-only term clears the list and loads an unfiltered first page. But the term
  itself stays in place, so the scroll observer stays off: it needs an empty term.
- A first-page load (offset 0, no search) raises neither loading flag.
- Closing the modal clears only the open flag. The selected character stays, so the modal
  is still rendered, just hidden.
- Within the modal's description section, the fallback text can never show, because the
  section exists only for a non-empty description. The card does use its fallback.

## Model

| member | source | states |
|---|---|---|
| `Text.DecimalRoundTrip` | src/app/_components/Characters/index.tsx:77 | a number written into the address (or the timestamp, or a count) reads back as the same number |
| `Text.Decimal` | src/app/api/characters/route.ts:17 | `toString()` of a non-negative integer: non-empty, digits only, no leading zero except for 0 |
| `Text.TrimEmptyIffBlank` | src/app/_components/Characters/index.tsx:132 | `term.trim() === ""` holds exactly when every character of the term is JavaScript white space |
| `Text.TrimStart` | src/app/_components/Characters/index.tsx:132 | the result is a suffix of the input that does not start with white space, and everything removed before it is white space |
| `Text.TrimEnd` | src/app/_components/Characters/index.tsx:132 | the result is a prefix of the input that does not end with white space, and everything removed after it is white space |
| `Text.Trim` | src/app/_components/Characters/index.tsx:132 | `trim()`: a contiguous part of the term, neither starting nor ending with white space, with only white space removed on either side |
| `QueryString.ParseJoin` | src/app/api/characters/route.ts:5 | plain key/value pairs written as `k=v&…` are read back by the proxy as the same pairs in the same order |
| `QueryString.ParseJoinedAt` | src/app/api/characters/route.ts:5 | reading `s&w` gives the pairs of `s` followed by the pairs of `w` |
| `Characters.Query` | src/app/_components/Characters/index.tsx:77 | the query is the pairs limit 20, the requested offset and, only for a non-empty term, `search`, written `key=value` and joined by `&` in that order, the term unencoded |
| `Characters.RequestUrl` | src/app/_components/Characters/index.tsx:76-78 | the fetched address is `/api/characters?` followed by a query that reads back as those pairs for any term the proxy can read back |
| `Characters.QueryReadsBack` | src/app/_components/Characters/index.tsx:76-78 | the request carries exactly limit 20, the requested offset, and `search` only when the term is non-empty, with the term unchanged |
| `Characters.AmpersandSplitsTerm` | src/app/_components/Characters/index.tsx:77 | since the term is not encoded, a term `a&b` reaches the proxy as search `a` followed by the pairs of `b` |
| `Characters.RenderCard` | src/app/_components/Characters/index.tsx:202-219 | a card shows the name, the description or "Sem descrição disponível." when it is empty, and a stories list only for a character with stories: the first min(n,3) names in order, with an overflow count n-3 exactly when n > 3 |
| `Characters.Merge` | src/app/_components/Characters/index.tsx:87-91 | a search result replaces the list; any other page is appended: length old + page, old entries first, order kept, no dedup |
| `Characters.SentinelShown` | src/app/_components/Characters/index.tsx:224 | the sentinel `div` is rendered exactly while more pages are expected, no search is running and the term is empty; it does not depend on `isLoadingMore` |
| `Characters.ObserverArmed` | src/app/_components/Characters/index.tsx:106 | the observer is attached only when neither loading flag is raised, more pages are expected and the term is empty; the sentinel is then on the page |
| `Characters.CharacterList.constructor` | src/app/_components/Characters/index.tsx:45-52 | initial state: empty list and term, offset 0, `hasMore` true, no flags, no selection, modal closed |
| `Characters.CharacterList.BeginLoad` | src/app/_components/Characters/index.tsx:67-78 | sets `isSearching` for a non-empty search, otherwise `isLoadingMore` when the offset is positive; returns the request address; nothing else changes |
| `Characters.CharacterList.CompleteLoad` | src/app/_components/Characters/index.tsx:80-102 | on a page: list merged, offset = requested offset + page length, `hasMore` = (page length is 20); on failure: list and offset kept, `hasMore` false; both flags false afterwards |
| `Characters.CharacterList.LoadCharacters` | src/app/_components/Characters/index.tsx:67-103 | one begin/complete pair: returns the address and leaves the settled state above |
| `Characters.CharacterList.Mount` | src/app/_components/Characters/index.tsx:63-65 | the mount effect loads the unfiltered page at offset 0 |
| `Characters.CharacterList.SetSearchTerm` | src/app/_components/Characters/index.tsx:159-161 | the input's value becomes the term; nothing else changes |
| `Characters.CharacterList.SearchCharacters` | src/app/_components/Characters/index.tsx:131-142 | a blank term resets to an empty list at offset 0 and loads the unfiltered first page; any other term loads page 0 filtered by the raw term, replacing the list |
| `Characters.CharacterList.DebounceElapsed` | src/app/_components/Characters/index.tsx:144-152 | when the timer fires, an empty term does nothing; a non-empty one runs `searchCharacters` on it |
| `Characters.CharacterList.ClearSearch` | src/app/_components/Characters/index.tsx:163-169 | term "", list emptied, offset 0, then the unfiltered first page is loaded |
| `Characters.CharacterList.SentinelVisible` | src/app/_components/Characters/index.tsx:114-118 | a page is loaded exactly when the sentinel intersects while the observer is armed: the unfiltered page at the current offset; otherwise nothing changes |
| `Characters.CharacterList.SelectCharacter` | src/app/_components/Characters/index.tsx:154-157 | the clicked character is selected and the modal opens |
| `Characters.CharacterList.CloseModal` | src/app/_components/Characters/index.tsx:249 | only the open flag drops; the selection is kept |
| `Characters.PagingExample` | src/app/_components/Characters/index.tsx:93-94 | a page of 20 from offset 0 gives offset 20 with `hasMore`; a next page of 7 gives offset 27 without it, holding both pages in order |
| `Characters.FailureExample` | src/app/_components/Characters/index.tsx:96-98 | a failed next page keeps the 20 loaded characters and offset 20, and stops paging |
| `Catalog.Truncate` | src/app/_components/CharacterModal.tsx:156-163 | `slice(0, cap)` with the `length > cap` test: the first min(n,cap) names in order, an overflow count exactly when n > cap, shown plus overflow = n |
| `Catalog.LinesOfTruncated` | src/app/_components/CharacterModal.tsx:155-164 | the rendered list has min(n,cap) name lines, in order, plus one final "... e mais (n-cap)" line exactly when n > cap |
| `Catalog.Lines` | src/app/_components/CharacterModal.tsx:155-164 | a section's list items: the shown names first, in order, then exactly one more line when names were cut off, "... e mais " with digits reading back as the overflow count |
| `Catalog.OverflowLine` | src/app/_components/CharacterModal.tsx:162 | the overflow line is "... e mais " followed by digits that read back as the count |
| `Catalog.EntryNames` | src/app/_components/CharacterModal.tsx:168 | a missing comics or series list has no names (optional chaining); a present one the names in order |
| `Catalog.StoryNames` | src/app/_components/CharacterModal.tsx:156-160 | the story names, one per story, in order |
| `Catalog.ImageUrl` | src/app/_components/CharacterModal.tsx:133 | the image address is the path, a dot, then the extension |
| `CharacterModal.ImageSource` | src/app/_components/CharacterModal.tsx:132-138 | the thumbnail address, replaced by `/placeholder-character.jpg` after a load error |
| `CharacterModal.Heading` | src/app/_components/CharacterModal.tsx:154 | the section title, " (", digits reading back as the full category count, ")" |
| `CharacterModal.CategorySection` | src/app/_components/CharacterModal.tsx:152-166 | a section exists exactly for a non-empty category, its heading count is the full n, and its list is the capped listing |
| `CharacterModal.Render` | src/app/_components/CharacterModal.tsx:120-198 | nothing for a null character; otherwise the image, the name, a description section exactly when the description is non-empty, and stories/comics/series sections capped at 10/5/5 |
| `CharacterModal.TwelveStories` | src/app/_components/CharacterModal.tsx:152-163 | twelve stories give the heading "Histórias (12)", ten entries in order and "... e mais 2" |
| `CharactersRoute.Get` | src/app/api/characters/route.ts:24-27 | `searchParams.get`: a value found is paired with the key in the list; nothing is found exactly when no pair has the key |
| `CharactersRoute.OrElse` | src/app/api/characters/route.ts:24-25 | the `or` with a fallback of a looked-up parameter: the value when it is present and non-empty, otherwise the fallback |
| `CharactersRoute.UpstreamParams` | src/app/api/characters/route.ts:20-29 | the upstream parameters: six when `search` is non-empty, five otherwise, and no key sent twice |
| `CharactersRoute.HashInput` | src/app/api/characters/route.ts:18 | the hashed string is the timestamp, then the private key, then the public key |
| `CharactersRoute.UpstreamKeys` | src/app/api/characters/route.ts:20-29 | upstream keys in order: ts, apikey, hash, limit, offset, and nameStartsWith only for a non-empty search |
| `CharactersRoute.UpstreamSigned` | src/app/api/characters/route.ts:17-23 | `ts` is the hashed timestamp, `apikey` the public key, `hash` = md5(ts + private key + public key) |
| `CharactersRoute.UpstreamPaging` | src/app/api/characters/route.ts:24-25 | `limit` and `offset` are the incoming values when non-empty, "20" and "0" otherwise |
| `CharactersRoute.UpstreamSearch` | src/app/api/characters/route.ts:26-28 | `nameStartsWith` is present exactly for a non-empty `search` and equals it |
| `CharactersRoute.Prepare` | src/app/api/characters/route.ts:7-29 | an unset or empty key gives "API keys not configured"; otherwise the signed parameters, timestamped with `Date.now()` |
| `CharactersRoute.Handle` | src/app/api/characters/route.ts:4-48 | a missing key gives 500 "API keys not configured"; otherwise an ok upstream body is relayed unchanged with status 200, and a not-ok or thrown upstream call gives 500 "Failed to fetch characters" |
| `CharactersRoute.KeysMissingSkipsUpstream` | src/app/api/characters/route.ts:10-15 | with a key missing, the response does not depend on the upstream call |
| `RequestFlow.PageRequestReachesUpstream` | src/app/api/characters/route.ts:20-28 | a page request from the controller reaches the upstream API with limit 20, its offset, and nameStartsWith equal to the term exactly when the term is non-empty |

## Left out

- `fetch`, `response.json()` and `NextResponse` are network and JSON I/O. The controller gets
  the outcome of its request as a parameter, and the proxy gets the upstream call as a
  function parameter. The proxy's response is a status and a body value, not serialised JSON.
- `md5` is a foreign library. It is a function parameter, and nothing is assumed about it.
- `Date.now()` is the clock. It is a natural-number parameter, rendered in decimal.
- URL parsing and encoding are not modelled: neither the percent-decoding and `+`-as-space
  of `URLSearchParams` nor the URL parser's removal of tab, line feed and carriage return
  and of trailing characters up to U+0020. Upstream parameters stay an ordered key/value
  list, and the reading in `QueryString` is a raw split. `QuerySafe` names the terms on which
  that split agrees with the browser: no `&`, `#`, `%`, `+`, tab, line feed or carriage
  return, and no final character up to U+0020.
- QueryReadsBack: stated only for `QuerySafe` terms, because the model does no URL decoding.
- AmpersandSplitsTerm: stated only for `QuerySafe` parts on both sides of the `&`, for the
  same reason.
- PageRequestReachesUpstream: stated only for `QuerySafe` terms, for the same reason.
- RequestUrl: its read-back clause holds only for `QuerySafe` terms, for the same reason.
- The 500 ms debounce and the `IntersectionObserver` mechanics are timer and browser APIs.
  Only the guards and the calls that fire are modelled: `DebounceElapsed` and
  `SentinelVisible`. Detaching the observer on teardown is not modelled.
- Overlapping requests are not modelled. The model applies one begin/complete pair at a time,
  so a stale response overwriting a newer one cannot be expressed. Nor can a scroll load that
  starts during the first-page load.
- Rendering and styling are left out: JSX and CSS, the modal's visibility through `isOpen`,
  the status texts ("Pesquisando...", "Todos os personagens foram carregados!", "Nenhum
  personagem encontrado."), the React keys built by `generateUniqueKey`, and `console.error`.
  The card's background image in `src/app/_components/Characters/styles.ts` uses the same
  address rule as `Catalog.ImageUrl`.
- `src/app/service/api.ts` (an axios instance built once at module load), `src/app/page.tsx`
  and `tailwind.config.mjs` hold no logic the core uses.
