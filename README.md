# Fastracker: the deterministic core, modelled in Dafny

Fastracker is a demo web application with two panels. In the chat panel a
user types a request in Spanish. The chat route turns the request into at
most one call of a mock shopping function, and it picks a canned reply.
The viewer panel shows the history of function results. Each result is
drawn with a template chosen by its tag.

This project models the logic underneath, module by module:

- `Text` (`text.dfy`): the JavaScript string operations the core uses.
  These are `toLowerCase`, `includes`, `indexOf`, `replace` with a string
  pattern, `trim`, `startsWith` and integer printing. Letters and white
  space are ASCII only.
- `Types` (`types.dfy`): the shapes of `lib/types.ts`. `FunctionResult`
  has a six-value `Tag`, and its payload is a datatype with one variant per
  kind of result. Argument records (`Record<string, any>`) are maps to a
  small `Value` datatype. `Stringify` is what a template literal prints for
  such a value.
- `Functions` (`functions.dfy`): `lib/functions.ts`. It holds the registry
  of four functions, their mock executors and `executeFunction`. A thrown
  error is a `Failure` that carries its message.
- `ChatRoute` (`chat_route.dfy`): `app/api/chat/route.ts` without its HTTP
  handler. `Classify` states the keyword classifier declaratively.
  `DetectFunctionCall` is the step-by-step version, and it is proved equal
  to `Classify`. `SimulateAssistantResponse` is the reply chain.
- `Page` (`page.dfy`): `app/page.tsx`. The `Session` class holds the
  current site and the result history. A pure `Step`/`Run` semantics over
  callback events states what any sequence of callbacks does.
- `ChatInterface` (`chat_interface.dfy`): `components/chat-interface.tsx`.
  It has the tag and title switches, and `Outcome`, the one history entry
  a call produces. The `ChatPanel` class runs `handleFunctionCall` against
  a `Session`. `SubmitDisabled` models the send button.
- `WebViewer` (`web_viewer.dfy`): `components/web-viewer.tsx`. It has the
  latest result and the template dispatch. It has the history listing, URL
  normalisation and the filter formatting. It has the `highestRated` and
  `allSpecs` reductions and the price and rating thresholds. The `Viewer`
  class holds the dialog fields and the active tab.
- `Dispatch` (`dispatch.dfy`): lemmas that span the modules. Every call
  the classifier produces is registered, has well-typed arguments and
  succeeds, and its history entry is drawn with the intent's own template.

Prices and ratings are `real`. Integers are unbounded, and ids are `int`;
JavaScript numbers are doubles, and the limits that brings are listed
under "Left out". JavaScript's truncating `%` is written out as `JsRem`, so
the model also fixes what the comparison does for negative ids.

Behaviours of the code worth knowing:

- `highestRated` lets ties go to the later product, because the earlier one
  is kept only when its rating is strictly greater
  (`WebViewer.HighestRatedTie`).
- Clicking a history card only switches to the results tab. The tab still
  shows the latest result, not the clicked one
  (`WebViewer.Viewer.ClickHistoryCard`).
- The search reply quotes the lower-cased term, such as "zapatillas nike"
  for the quick suggestion "Buscar zapatillas Nike" (`ChatRoute.SearchExample`).
- The classifier and the reply chain test the same keywords in the same
  order, so they always agree (`ChatRoute.ReplyAgreesWithClassifier`). The
  one gap is a bare "buscar": the reply then quotes an empty term, while
  the query falls back to "productos" (`ChatRoute.SearchReplyQuotesQuery`).

## Model

| member | source | states |
|---|---|---|
| Functions.Find | lib/functions.ts:196 | `find` by name: nothing exactly when no entry has the name, otherwise the first entry with that name |
| Functions.RegistryContents | lib/functions.ts:4-192 | the registry holds four entries with distinct names, each paired with its own routine; a lookup succeeds exactly for the four names and returns the entry with that name |
| Functions.FindByActionName | lib/functions.ts:196 | looking up a routine's registered name finds that routine |
| Functions.SearchProductsExec | lib/functions.ts:24-51 | `search_products` returns total 128, page 1, 13 pages and five products with ids 1..5, named by the query followed by " Premium", " Standard", " Basic", " Pro", " Ultra" |
| Functions.SortLabel | lib/functions.ts:75-82 | price_asc reads "precio ascendente", price_desc "precio descendente", rating "mejor valorados", and every other value "más recientes" |
| Functions.SortLabelCases | lib/functions.ts:75-82 | the three known sort keys get three distinct labels, and any other value, absent included, reads "más recientes" |
| Functions.PriceBase | lib/functions.ts:94 | `minPrice || 59.99`: a non-zero numeric minPrice, otherwise 59.99 |
| Functions.ApplyFiltersExec | lib/functions.ts:71-119 | fails exactly when `filters` is absent; otherwise echoes the filters, total 42, the sort label, and four products priced base, base+20, base+40, base+60 |
| Functions.DetailPrice | lib/functions.ts:139 | `99.99 + productId * 10` for a numeric id, NaN otherwise |
| Functions.GetProductDetailsExec | lib/functions.ts:132-155 | echoes the id, names the product by it, price 99.99 + 10·id for a numeric id and NaN otherwise, rating 4.5, 128 reviews, four specifications starting with Material=Aluminio, three images |
| Functions.JsRem | lib/functions.ts:179-185 | JavaScript's `%`: Euclidean for non-negative dividends; for negative ones the negated remainder of the negated dividend, in (-b, 0] |
| Functions.JsRemTruncates | lib/functions.ts:179-185 | the dividend is a multiple of the divisor plus the remainder, so with the sign and bound above the remainder is that of truncated division |
| Functions.CompareEntrySpecs | lib/functions.ts:175-188 | Material is Aluminio and Garantía is "2 años" exactly for even ids, Plástico and "1 año" for odd ones; Color follows the id's remainder by 3; Peso is 200+50·id followed by "g" |
| Functions.CompareProductsExec | lib/functions.ts:170-190 | succeeds exactly when `productIds` is an array, and then yields one entry per id, in input order |
| Functions.CompareKeepsOrder | lib/functions.ts:175 | the i-th compared product carries the i-th id |
| Functions.ExecuteFunction | lib/functions.ts:195-207 | an unknown name fails with `Función "<name>" no encontrada`; a known name yields its routine's outcome, an error passed on unchanged |
| Functions.ExecuteFunctionDispatch | lib/functions.ts:195-207 | a registered name runs the routine registered under it |
| Functions.NotFoundOnlyForUnknownNames | lib/functions.ts:196-199 | the not-found failure happens exactly for names outside the registry |
| ChatRoute.QueryOf | app/api/chat/route.ts:72-76 | the query is never empty: the stripped term, or "productos" when that is empty |
| ChatRoute.BuildFilters | app/api/chat/route.ts:83-98 | the record assigned key by key equals the price rules' keys joined with the brand rule's |
| ChatRoute.DetectFunctionCall | app/api/chat/route.ts:68-127 | the step-by-step classifier returns exactly `Classify` of the message |
| ChatRoute.ClassifyIgnoresCase | app/api/chat/route.ts:69 | the call depends only on the lower-cased message |
| ChatRoute.ClassifyNoneIffNoTrigger | app/api/chat/route.ts:68-126 | no call exactly when the message contains none of the six trigger words |
| ChatRoute.ClassifySearch | app/api/chat/route.ts:71-79 | "buscar" wins over every other trigger; the query is the trimmed remainder or "productos", and the filters are an empty record |
| ChatRoute.QueryIsTrimmedLowerCase | app/api/chat/route.ts:69-76 | the query has no white space at either end and no upper-case letter |
| ChatRoute.ClassifyFilter | app/api/chat/route.ts:82-106 | without "buscar", "filtrar"/"filtro" give `apply_filters`; maxPrice=100 with "menor", else minPrice=100 with "mayor", else the 50..200 window, all only with "precio"; brand=Nike exactly with "marca"; no other key |
| ChatRoute.ClassifyCompare | app/api/chat/route.ts:108-115 | "comparar", after the earlier triggers fail, compares products 1, 2 and 3 |
| ChatRoute.ClassifyDetails | app/api/chat/route.ts:117-124 | "detalles"/"producto", last in priority, ask for product 1 |
| ChatRoute.SearchExample | app/api/chat/route.ts:40-79 | the quick suggestion "Buscar zapatillas Nike" searches for "zapatillas nike" with empty filters, and the reply quotes "zapatillas nike" |
| ChatRoute.SimulateAssistantResponse | app/api/chat/route.ts:39-64 | a last message containing "buscar" is answered with the search reply quoting its trimmed remainder; any other message gets one of the four fixed sentences |
| ChatRoute.ReplyAgreesWithClassifier | app/api/chat/route.ts:40-126 | the reply is the generic sentence exactly when no function is called; otherwise reply and call come from the same branch |
| ChatRoute.SearchReplyQuotesQuery | app/api/chat/route.ts:47-49 | the search reply quotes the query whenever the stripped term is non-empty, and quotes "" when the query falls back to "productos" |
| Page.Step | app/page.tsx:18-25 | adding a result appends it and keeps the site; changing the site replaces it and keeps the history |
| Page.HistoryAppendOnly | app/page.tsx:16-25 | after any callbacks the history is the old history followed by exactly the added results, in order |
| Page.SiteIsLastChange | app/page.tsx:18-20 | the site is the one of the last site change, or unchanged when there was none |
| Page.HistoryFromStart | app/page.tsx:16 | from the initial state the history is exactly the added results |
| Page.Session.constructor | app/page.tsx:10-16 | the page starts on Amazon at https://www.amazon.com with an empty history |
| Page.Session.AddFunctionResult | app/page.tsx:23-25 | the history grows by one, the new result is last, earlier entries and the site are unchanged |
| Page.Session.ChangeSite | app/page.tsx:18-20 | the site is replaced wholesale and the history is untouched |
| ChatInterface.ResultType | components/chat-interface.tsx:111-124 | search, filter, product and chart tags exactly for the four registered names; never the error tag |
| ChatInterface.Title | components/chat-interface.tsx:127-140 | a name the registry does not know is titled "Resultado de <name>" |
| ChatInterface.TitleCases | components/chat-interface.tsx:127-140 | the five titles, the search title quoting the query and the detail title the product id |
| ChatInterface.DetailTitlesDistinct | components/chat-interface.tsx:134 | two numeric product ids share a detail title only when they are equal |
| ChatInterface.ErrorEntry | components/chat-interface.tsx:98-104 | the error entry has the error tag and the message as its payload |
| ChatInterface.Outcome | components/chat-interface.tsx:76-108 | on success the executor's output with the name's tag and title; on failure the error tag, title "Error en <name>" and the error message |
| ChatInterface.OutcomeWellTagged | components/chat-interface.tsx:81-104 | an entry is an error entry exactly when the call failed, and every entry's tag matches its payload's shape |
| ChatInterface.NeverList | components/chat-interface.tsx:81-86 | no call ever yields a "list" entry, since unknown names fail in the lookup first |
| ChatInterface.SubmitDisabled | components/chat-interface.tsx:250 | send is disabled exactly while loading, while executing, or when the input is all white space |
| ChatInterface.ChatPanel.constructor | components/chat-interface.tsx:28 | the panel starts idle |
| ChatInterface.ChatPanel.RunExecutor | components/chat-interface.tsx:78-81 | for calls that do not overlap, the executor runs only while the executing flag is set, and returns the executor's outcome |
| ChatInterface.ChatPanel.HandleFunctionCall | components/chat-interface.tsx:76-108 | exactly one entry, `Outcome` of the call, is appended to the page's history; the site is kept and the flag is false afterwards |
| WebViewer.LatestResult | components/web-viewer.tsx:56 | the last entry of the history, nothing exactly when it is empty |
| WebViewer.HistoryListing | components/web-viewer.tsx:136-158 | one card per entry, the i-th card being the i-th entry counted from the newest |
| WebViewer.HistoryListingOrder | components/web-viewer.tsx:136-158 | the listing holds the history's entries newest first, its first card being the latest result |
| WebViewer.DisplayFor | components/web-viewer.tsx:176-191 | each of the six tags has its own template: search results, filtered results, product details, comparison, error, and the generic view exactly for "list" |
| WebViewer.DisplayForInjective | components/web-viewer.tsx:176-191 | different tags get different templates |
| WebViewer.ResultsTab | components/web-viewer.tsx:121-130 | the empty-state message exactly for an empty history; otherwise the latest result in its tag's template |
| WebViewer.NormalizeUrl | components/web-viewer.tsx:47 | URLs starting with "http" are kept, others get "https://"; the result always starts with "http" |
| WebViewer.NormalizeUrlIdempotent | components/web-viewer.tsx:47 | normalising twice equals normalising once, and the typed URL ends the result |
| WebViewer.Viewer.constructor | components/web-viewer.tsx:38-41 | dialog closed and empty, on the results tab |
| WebViewer.Viewer.HandleChangeSite | components/web-viewer.tsx:43-53 | with both fields filled, the page's site becomes the name and normalised URL and the dialog is cleared and closed; otherwise nothing changes |
| WebViewer.Viewer.ClickHistoryCard | components/web-viewer.tsx:139-142 | any card switches to the results tab, which then shows the latest result in its tag's template, not the clicked card's; the dialog is untouched |
| WebViewer.FormatFilterKey | components/web-viewer.tsx:703-713 | each of the six known keys gets its Spanish label ("Precio mínimo", "Precio máximo", "Categoría", "Marca", "Valoración", "Ordenar por"); a key is shown unchanged exactly when it is not one of them |
| WebViewer.FormatFilterKeyCases | components/web-viewer.tsx:703-713 | six distinct labels for the six known keys; other keys unchanged |
| WebViewer.FormatFilterValue | components/web-viewer.tsx:716-724 | "$" before values of keys containing "Price", "★+" after the rating, the value's string form otherwise |
| WebViewer.FormatPriceKeys | components/web-viewer.tsx:717-719 | minPrice and maxPrice are shown in dollars, a lower-case "price" key is not |
| WebViewer.ReduceBest | components/web-viewer.tsx:273-276 | the reduction returns a product of maximal rating, with every later product rated strictly lower |
| WebViewer.HighestRated | components/web-viewer.tsx:273-276 | nothing exactly for an empty product list; otherwise the reduction's product, a member of the list with maximal rating |
| WebViewer.HighestRatedTie | components/web-viewer.tsx:275 | of two equally rated products the later one wins |
| WebViewer.Dedup | components/web-viewer.tsx:525 | a Set spread keeps each element once and no others |
| WebViewer.DedupOrder | components/web-viewer.tsx:525 | a Set spread keeps first-appearance order |
| WebViewer.AllSpecs | components/web-viewer.tsx:524-526 | the union holds exactly the keys of all products |
| WebViewer.AllSpecsIsDedup | components/web-viewer.tsx:524-526 | the step-by-step union equals one de-duplication of all keys in order |
| WebViewer.AllSpecsUnion | components/web-viewer.tsx:524-526 | every specification key of every product appears exactly once, in first-appearance order |
| WebViewer.PriceCategory | components/web-viewer.tsx:437 | every price falls in one of the three categories, and a price that is not a number is "premium" |
| WebViewer.PriceCategoryThresholds | components/web-viewer.tsx:437 | "económico" below 100, "rango medio" below 200, else "premium", monotone in the price; NaN reads "premium" |
| WebViewer.RatingQuality | components/web-viewer.tsx:438-439 | every rating gets one of the four quality words |
| WebViewer.RatingQualityThresholds | components/web-viewer.tsx:438-439 | "excelente" from 4.5, "muy buena" from 4.0, "buena" from 3.5, else "aceptable", monotone in the rating |
| Dispatch.FilterArgsConform | app/api/chat/route.ts:82-106 | the filter record fits the declared `filters` schema of `apply_filters` |
| Dispatch.ClassifiedCallsConform | app/api/chat/route.ts:68-126 | every classified call names a registered function, passes arguments of its declared types, and is tagged for its intent |
| Dispatch.ClassifiedCallRuns | lib/functions.ts:195-207 | every classified call's executor succeeds |
| Dispatch.ClassifiedCallsSucceed | components/chat-interface.tsx:76-108 | a classified call's entry is never an error or generic entry, and a search entry's title quotes the query |

## Left out

- The HTTP handler `POST`, `useChat`, `onResponse`, quick-suggestion timers and scrolling: network and framework plumbing.
- The simulated delays in the executors and in the reply: timing only.
- Rendering, icons, the AI insight texts, dialogs and tabs widgets, and the logo: presentation only.
- The `toFixed` currency strings, the min/max/average price range and the `rating / price` comparison sorts: floating-point formatting.
- `Date.now()` ids, `new Date()` timestamps and `Intl.DateTimeFormat`: they become parameters (`id`, `timestamp`) or are left out.
- `console.error` logging.
- Unicode case mapping and white space: `Text.Lower` and `Text.Trim` handle ASCII only; every trigger word is ASCII.
- Functions.PriceBase: a truthy non-numeric `minPrice` is treated as absent; JavaScript would concatenate it as a string.
- Functions.DetailPrice: the model gives NaN for every non-numeric id. JavaScript's `*` converts some of them to numbers: a numeric string or a one-element numeric array acts as that number, and `[]`, `""` or a white-space string act as 0, which gives the price 99.99.
- Functions.CompareProductsExec: the rating, a one-decimal string in the source, is kept as the exact real it prints.
- Functions.ApplyFiltersExec: argument numbers are integers in the model; the classifier emits no others.
- WebViewer.FormatFilterKey: keys inherited from `Object.prototype`, such as "constructor", are returned unchanged; in JavaScript the lookup finds the inherited member.
- ChatRoute.SimulateAssistantResponse: an empty conversation is excluded by a precondition; the source would throw reading the last message, and the conversation comes from the request handler, which is not modelled.
- ChatInterface.ChatPanel.HandleFunctionCall: the call is modelled as one atomic step. In the source it awaits the executor, a quick suggestion can start a second call meanwhile, and the first call's `finally` then clears the executing flag while the second still runs; overlapping calls are not modelled.
- Types.Stringify: integers are printed as exact decimals. JavaScript numbers are doubles: ids and prices past 2^53 lose precision, and `${n}` switches to exponent notation from 1e21. Ids are left unbounded instead, and `Functions.CompareEntry`'s arithmetic and titles are exact for them.
- The insertion order JavaScript keeps for the keys of an object, such as the filter record `ChatRoute.BuildFilters` assigns, is not modelled: maps have no key order.
- The schemas in the registry are declared but never enforced by the source; `Types.ArgsConform` only states what they declare.
