# Blog client core: pagination, async fetch state, DOM-to-element conversion

A verified Dafny model of the three pieces of sequential logic in a small
React blog client.

- **Access-log pagination** (`access_log_page.dfy`, module `AccessLogPage`).
  `Pagenation` lists a window of up to ten page numbers. The window starts at
  `floor((page - 1) / 10) * 10 + 1`. It is cut short at `totalPages`, and a
  negative length gives an empty window. The component also disables prev
  and next, and marks the entry equal to `page` as active. The page component keeps a `page`
  counter that starts at 1. It changes only through the increase, decrease and
  change handlers, and each of them runs only from an enabled button or a listed
  number. The window is a set of pure functions with lemmas. The counter is
  the class `PageState`. The pure function `AfterClick` specifies what one click
  does, and the lemmas prove that runs of clicks keep `1 <= page <= max(1, totalPages)`.
- **`useAsync`** (`use_async.dfy`, module `UseAsync`). The hook's three state
  cells are the fields of the class `AsyncHook`. One run of `fetchData` is split at its `await`.
  `FetchData` sets `isLoading` and clears `error` and `data`. `Resolve(v)` or
  `Reject(e)` then stores the outcome and runs the `finally` step. `Mount` and
  `Rerender` are the effect: it runs when the dependency list changes, unless
  `skip` is set. `Refetch` is the same `fetchData`. Four small client methods
  show the hook's promises end to end: one automatic run with the default
  empty deps, no run under `skip` until `refetch`, one settled run, and two
  overlapping runs where the last to settle wins. Ghost fields count the
  pending runs and note overlap. The object invariant `Valid()` states the
  one-phase-at-a-time property for runs that do not overlap. The model makes
  no such claim for overlapping runs, where the last run to settle wins.
- **`traverse`** (`new_html_post_page.dfy`, module `NewHtmlPostPage`). An
  already parsed DOM tree is converted to a React node tree:
  - an element becomes its lower-cased tag, a props map from its attributes and its
    converted children;
  - a text node becomes its text;
  - anything else becomes `null`.

  The attribute loop is the method `CopyAttributes`, proved equal to the fold
  `AttrMap`; an attribute named `__proto__` adds no key, as on a plain
  JavaScript object. The conversion starts from `document.body`, the first
  `body` or `frameset` child of the `html` element. The lemmas show that the
  conversion keeps the tree's shape and its text in order.

`wrappers.dfy` holds the `Option` type used for JavaScript's `null`.

## Model

| member | source | states |
|---|---|---|
| `AccessLogPage.WindowStart` | src/AccessLogPage.tsx:80 | the window start is one more than a multiple of ten, `start <= page < start + 10`, and it is at least 1 when `page >= 1` |
| `AccessLogPage.RequestedLength` | src/AccessLogPage.tsx:82 | the requested length never exceeds ten |
| `AccessLogPage.PageNumbers` | src/AccessLogPage.tsx:81-84 | at most ten entries; `max(0, totalPages - start + 1)` entries when fewer than ten remain, ten otherwise; entry `i` is `start + i`, so strictly increasing; for `page >= 1` every entry is in `1..totalPages`; a page in `1..totalPages` is listed |
| `AccessLogPage.Pagenation` | src/AccessLogPage.tsx:85-102 | one button per entry of `PageNumbers`, showing that entry's number in the same order; so at most ten buttons with increasing numbers, real pages when `page >= 1`; a button is active iff its number is `page`, no two are active, and one is active whenever `page` is in `1..totalPages` |
| `AccessLogPage.WindowMembership` | src/AccessLogPage.tsx:80-84 | for `page >= 1`, `p` is listed iff `1 <= p <= totalPages` and `p` is in the same block of ten as `page` |
| `AccessLogPage.PrevNextEnabled` | src/AccessLogPage.tsx:90-100 | prev is enabled iff `page > 1`; next is enabled iff `page < totalPages`; the last page disables next and page 1 disables prev |
| `AccessLogPage.NoPages` | src/AccessLogPage.tsx:80-100 | page 1 of 0 lists nothing and disables both arrows |
| `AccessLogPage.FirstBlockExample` | src/AccessLogPage.tsx:80-84 | page 5 of 23 lists 1 to 10 with both arrows enabled |
| `AccessLogPage.MiddleBlockExample` | src/AccessLogPage.tsx:80-84 | page 15 of 23 starts at 11 and lists 11 to 20 |
| `AccessLogPage.LastBlockExample` | src/AccessLogPage.tsx:80-100 | page 23 of 23 starts at 21, lists 21 to 23 and disables next |
| `AccessLogPage.Fires` | src/AccessLogPage.tsx:90-100 | a control that reaches its handler leads to a real page: prev only above page 1, next only below `totalPages`, a number only from the window |
| `AccessLogPage.AfterClick` | src/AccessLogPage.tsx:35-37 | a click that does not fire leaves `page` alone; one click keeps `page >= 1`, and keeps `page <= max(1, totalPages)` when it held before |
| `AccessLogPage.ClicksInRange` | src/AccessLogPage.tsx:26-37 | from any page in `1..max(1, totalPages)`, every run of gated clicks stays in that range |
| `AccessLogPage.PageState.constructor` | src/AccessLogPage.tsx:26 | `page` starts at 1 |
| `AccessLogPage.PageState.OnPageIncrease` | src/AccessLogPage.tsx:35 | `page` becomes `page + 1` |
| `AccessLogPage.PageState.OnPageDecrease` | src/AccessLogPage.tsx:36 | `page` becomes `page - 1` |
| `AccessLogPage.PageState.OnPageChange` | src/AccessLogPage.tsx:37 | `page` becomes the chosen `p` |
| `AccessLogPage.PageState.Click` | src/AccessLogPage.tsx:90-100 | a click fires exactly when its control is enabled or listed; the new page is `AfterClick` of the old one; `page >= 1` is kept, and so is `page <= max(1, totalPages)` |
| `UseAsync.AsyncHook.constructor` | src/useAysnc.tsx:8-10 | the hook starts idle: not loading, no error, no data |
| `UseAsync.AsyncHook.FetchData` | src/useAysnc.tsx:12-16 | starting a run sets `isLoading` and clears `error` and `data`; it marks an overlap when another run is pending |
| `UseAsync.AsyncHook.Refetch` | src/useAysnc.tsx:33 | `refetch` makes the same transition as an automatic run |
| `UseAsync.AsyncHook.Resolve` | src/useAysnc.tsx:18-23 | success stores the value in `data`, clears `isLoading` and leaves `error` alone; without overlap this is the success phase |
| `UseAsync.AsyncHook.Reject` | src/useAysnc.tsx:20-24 | failure stores the caught value in `error` without re-throwing, clears `isLoading` and leaves `data` alone; without overlap this is the failure phase |
| `UseAsync.AsyncHook.Mount` | src/useAysnc.tsx:27-31 | on mount a run starts iff `skip` is false, and it is marked as overlapping iff another run is pending; with `skip` nothing changes, overlap flag included |
| `UseAsync.AsyncHook.Rerender` | src/useAysnc.tsx:27-31 | a render starts a run iff the deps changed and `skip` is false, marked as overlapping iff another run is pending; otherwise the state, run count and overlap flag are unchanged |
| `UseAsync.DefaultDepsRunOnce` | src/useAysnc.tsx:5-31 | with the default empty deps, mount plus any number of renders starts exactly one run |
| `UseAsync.SkipStaysIdle` | src/useAysnc.tsx:27-33 | with `skip`, mount and renders with any deps leave the hook idle, and `refetch` then starts a run |
| `UseAsync.SingleRunSettles` | src/useAysnc.tsx:12-24 | one run on its own ends with exactly the value and no error, or exactly the error and no data |
| `UseAsync.OverlapLastSettledWins` | src/useAysnc.tsx:12-33 | two overlapping runs settle last-settled-wins and can leave both `error` and `data` set |
| `NewHtmlPostPage.NodeType` | src/NewHtmlPostPage.tsx:9-19 | `nodeType` is the element code exactly for elements and the text code exactly for text nodes |
| `NewHtmlPostPage.FirstBodyIndex` | src/NewHtmlPostPage.tsx:27 | finds the first `body` or `frameset` element among the children, or reports that there is none |
| `NewHtmlPostPage.Body` | src/NewHtmlPostPage.tsx:27 | `document.body` is the first `body` or `frameset` child of `html`, and is absent only when there is no such child |
| `NewHtmlPostPage.ParseHtmlToComponentTree` | src/NewHtmlPostPage.tsx:4-30 | with a body, the root is an element tagged `body` or `frameset` with one child per child of the body; without one, conversion fails |
| `NewHtmlPostPage.LowerChar` | src/NewHtmlPostPage.tsx:10 | lower-casing maps `A`-`Z` to `a`-`z` and leaves every other character alone |
| `NewHtmlPostPage.ToLower` | src/NewHtmlPostPage.tsx:10 | each character of the tag is lower-cased on its own: `A`-`Z` become `a`-`z` and every other character is kept, so the length is the same and no upper-case letter is left |
| `NewHtmlPostPage.ToLowerFacts` | src/NewHtmlPostPage.tsx:10 | a lower-case name is unchanged and lower-casing is idempotent |
| `NewHtmlPostPage.AssignProp` | src/NewHtmlPostPage.tsx:14 | assigning a name other than `__proto__` adds or replaces exactly that key; `__proto__` changes nothing; other keys keep their values |
| `NewHtmlPostPage.AttrMap` | src/NewHtmlPostPage.tsx:11-15 | the props keys are exactly the attribute names other than `__proto__` |
| `NewHtmlPostPage.CopyAttributes` | src/NewHtmlPostPage.tsx:11-15 | the attribute loop builds exactly the in-order fold `AttrMap` |
| `NewHtmlPostPage.AttrMapLastWins` | src/NewHtmlPostPage.tsx:13-15 | a name other than `__proto__` maps to the value of its last occurrence |
| `NewHtmlPostPage.Traverse` | src/NewHtmlPostPage.tsx:8-24 | elements and only elements become elements; text and only text becomes text, with exactly its data; an element keeps the lower-cased tag, one child per child and one prop per attribute name other than `__proto__`; every tag in the result is lower case |
| `NewHtmlPostPage.TraversePreservesShape` | src/NewHtmlPostPage.tsx:8-24 | the output tree has the same shape as the input tree |
| `NewHtmlPostPage.TraversePreservesText` | src/NewHtmlPostPage.tsx:17-20 | the list of the output's string leaves equals the list of the input's text-node data, one for one and in document order: nothing split, merged, dropped or reordered; comments contribute nothing |
| `NewHtmlPostPage.ChildrenInOrder` | src/NewHtmlPostPage.tsx:17 | child `i` of the output is the conversion of child `i` of the input |
| `NewHtmlPostPage.ElementProps` | src/NewHtmlPostPage.tsx:13-15 | each attribute other than `__proto__` that no later attribute overwrites appears in the props with its value |

## Left out

- `fetchAccessLog`, the log list rendering, `moment` date formatting and list keys from `Date.getTime()` (src/AccessLogPage.tsx:22-23, 42-49): HTTP and formatting, with no contract of their own.
- Page numbers and `totalPages` are integers. JavaScript numbers that are not integers, such as a fractional `totalPages` in a server response, are not modelled.
- React's render scheduling and batching of state setters: each setter is an immediate field update.
- React's dependency comparison: `Rerender` compares whole dependency lists by value equality, where React compares element-wise with `Object.is`.
- The producer call itself: its outcome is the argument of `Resolve` or `Reject`. The time between the call and its completion is not modelled.
- `UseAsync.AsyncHook.Resolve`: stores `Some(v)` for every value. React's setter treats a function value as an updater and stores its result instead, and a producer that resolves with `null` or `undefined` leaves `data` null, so the source ends in the idle-looking state rather than the success phase.
- `UseAsync.AsyncHook.Reject`: stores `Some(e)` for every value. A rejected function value would likewise be called as an updater, and a rejection with `null` itself is not told apart from "no error".
- Overlapping runs: the model keeps last-settled-wins and allows `error` and `data` both set. `Valid()` makes no phase claim while `overlapped` holds. Updates after unmount are not modelled.
- `DOMParser.parseFromString`, `console.log` and `dangerouslySetInnerHTML`: the input is the parsed children of the `html` element as `DomNode` values.
- `React.createElement` and rendering: a `ReactElement` holds the arguments of the call. How React moves `key` and `ref` out of the props, and what React DOM then accepts, are not modelled. For instance, it rejects a void element such as `br` that is given a children array, and it rejects a string `style` prop.
- `NewHtmlPostPage.ParseHtmlToComponentTree`: `None` stands for the `TypeError` of `traverse(null)`; parsing `text/html` always creates a `body` or `frameset`, so this case does not arise from the parser.
- `NewHtmlPostPage.LowerChar` and `NewHtmlPostPage.ToLower`: only ASCII letters are lower-cased. The HTML tokenizer keeps other characters in tag names (a custom element `x-Ä` has tag name `X-Ä`), and `toLowerCase` applies full Unicode case mapping to them, which the model does not.
- DOM node kinds other than element, text and comment: the HTML parser turns `<?...>` into a comment and CDATA in foreign content into text, and a doctype cannot occur below `html`, so `DomNode` has no others.
- CSS modules and `classNames`: only the "active iff the number equals `page`" flag is kept.
- src/App.tsx and src/NewMdPostPage.tsx: routing, forms, HTTP calls, dialogs and Markdown rendering are not part of this model.
