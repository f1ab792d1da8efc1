# Portfolio page logic, modelled in Dafny

The page script `script.js` wires a personal portfolio page: a light/dark theme switch, a mobile
navigation menu, a navbar that reacts to scrolling, highlighted navigation links, keyboard
navigation between sections, a contact-form validator, and a blog widget
(`AdvancedDevToBlogManager`). The widget loads the author's articles from dev.to in pages of six
and shows them as cards. A "load more" button appends the next page. A modal shows a preview of
one article.

The model keeps each stateful component as a Dafny class whose fields are the state the script
updates in place. The pure decisions become functions. The DOM, the network and timers become
parameters and plain values:

- `BlogManager.AdvancedDevToBlogManager` holds the loader's and the modal's fields.
  `loadBlogPosts` is asynchronous, so it is split at its `await`:
  - `StartLoad(page)` is the guard and the request. It returns the page it asks for, if any.
  - `FinishLoad(outcome)` is the `try`/`catch`/`finally` that runs when the fetch ends.
  Module `BlogFeed` gives the same state as a value (`Feed`, `Modal`) and the transition
  functions that specify the methods. Over runs of events (`Run`) it proves:
  - the loaded list is always the successful pages joined in arrival order;
  - the requested page numbers always increase;
  - a click while a page is still loading uses up a page number that is then never fetched.
- `BlogCards` gives the card, preview and placeholder view models as functions of a `Post`. The
  cover, description, counts and tag list of a `Post` may be absent; its title, URL and date are
  present. Titles are measured in UTF-16 code units, as JavaScript strings are, and are taken to
  be well-formed UTF-16: a Dafny character cannot hold a lone surrogate, which a JavaScript
  string can (and which `encodeURIComponent` would reject as well).
- `FormValidation` gives the e-mail regex as the set of strings it matches. A direct check is
  proved equivalent to it, and `ValidateForm` gives the form check.
- `Theme`, `Navigation`, `ActiveLinks` and `Keyboard` model the remaining components. `Page.Body`
  is the document body. The mobile menu and the blog modal share it, and `App` shows what that
  sharing does.

Four behaviours of the code are worth noting:
- A failed load keeps the list, but a list that fails to render has already been stored.
  Building a card throws for a post without a tag list. The `catch` block then shows the
  fallback panel and skips the button update.
- Every card generates a placeholder cover for its image's `onerror` fallback, even when the
  article has a cover. The placeholder sends the first 30 code units of the title through
  `encodeURIComponent`. When the 30th unit is the first half of a surrogate pair, that call
  throws a URIError. One article titled with 29 letters and an emoji therefore replaces the
  whole grid with the fallback panel (`BlogFeed.EmojiTitleBlanksFirstPage`).
- The load-more handler increments `currentPage` before the guard runs. A click during a load
  therefore skips a page, which is never fetched (`BlogFeed.ClickDuringLoadSkipsPage`).
- The event listeners are attached only after the first load returns, because `init` awaits
  it. Clicks before that do nothing (`listening`).

## Model

| member | source | states |
|---|---|---|
| JsBuiltins.IndexOf | script.js:488 | the first position of the element, or -1 exactly when it is absent |
| JsBuiltins.Utf16Prefix | script.js:817 | `encodeURIComponent(s.substring(0, n))` fails exactly when code unit n falls inside a surrogate pair; otherwise the text is a prefix of at most n units that is all of s or exactly n units; s is well-formed UTF-16 |
| JsBuiltins.Trim | script.js:342 | the result is an infix of the input that starts and ends at non-whitespace, and everything cut off is whitespace |
| FormValidation.ValidateEmailMatchesRegex | script.js:334-337 | the direct check accepts exactly the strings A@B.C that the regex `^[^\s@]+@[^\s@]+\.[^\s@]+$` matches, with A, B, C non-empty and free of whitespace and '@' |
| FormValidation.ValidatedEmailMatchesRegex | script.js:335 | every address the direct check accepts has such a split |
| FormValidation.RegexMatchValidates | script.js:335 | every string with such a split passes the direct check |
| FormValidation.AbsentEmailRejected | script.js:346 | an absent e-mail (coerced to "undefined") is rejected |
| FormValidation.ValidateForm | script.js:339-358 | valid iff no errors; the name error iff the name is absent or trims to under 2 UTF-16 code units; the e-mail error iff the regex fails; the message error iff the message is absent or trims to under 10 units; errors in the order name, e-mail, message |
| FormValidation.TextsIdentifyErrors | script.js:343-351 | the three error texts differ, so the reported texts name the errors |
| Theme.InitialTheme | script.js:11 | the stored theme when it is present and non-empty, otherwise "light"; never empty |
| Theme.Toggled | script.js:27-29 | the result is "light" or "dark", and it is "dark" exactly when the theme was "light" |
| Theme.ToggleTwice | script.js:27-29 | two toggles restore the theme exactly when it was "light" or "dark"; from any other value they give "dark" |
| Theme.ThemeManager.constructor | script.js:10-19 | starts with the initial theme, applied to the document, storage and icon |
| Theme.ThemeManager.SetTheme | script.js:21-25 | document attribute, current theme and storage all become the theme |
| Theme.ThemeManager.UpdateThemeIcon | script.js:39-41 | moon for "light", sun otherwise |
| Theme.ThemeManager.ToggleTheme | script.js:27-31 | the theme becomes `Toggled` of the old one, with document, storage and icon in agreement |
| Navigation.FlagsAfterScroll | script.js:95-109 | 'scrolled' iff y > 100; hidden iff scrolled and y > the last offset |
| Navigation.ScrollingUpShowsNavbar | script.js:105-109 | scrolling up, or staying within 100 pixels, never hides the navbar |
| Navigation.NavigationManager.constructor | script.js:53-75 | menu closed and the scroll listener's last offset is the start-up offset |
| Navigation.NavigationManager.ToggleMobileMenu | script.js:77-83 | the menu flips, hamburger and menu agree, and the body is locked exactly while the menu is open |
| Navigation.NavigationManager.CloseMobileMenu | script.js:85-89 | the menu is closed and the body unlocked |
| Navigation.NavigationManager.OnScroll | script.js:94-112 | the flags are `FlagsAfterScroll(lastY, y)` and the last offset becomes y |
| Navigation.ToggleTwice | script.js:77-83 | two toggles from closed end closed and unlocked |
| ActiveLinks.UpdateActiveNavLink | script.js:159-166 | afterwards a link is active exactly when its href equals the target |
| ActiveLinks.UpdateActiveNavigation | script.js:211-218 | afterwards a link is active exactly when its href is '#' followed by the section id |
| Keyboard.NextIndex | script.js:487-495 | the index is in [0,4); ArrowDown moves down and maps 3 to 0; ArrowUp moves up and maps 0 and -1 to 3 |
| Keyboard.ArrowKeysInverse | script.js:490-495 | ArrowUp undoes ArrowDown and vice versa from every known section |
| Keyboard.NextSection | script.js:486-495 | the target is always one of the four section ids |
| Keyboard.RenamedHeroSection | script.js:467-495 | from the renamed hero 'main', ArrowUp leads to 'contact' and ArrowDown to 'home' |
| Keyboard.GetCurrentSection | script.js:508-520 | the id of the last section starting at or above scrollY + 100, or 'home' when there is none |
| BlogCards.ReadingTime | script.js:628 | 5 when absent or zero, otherwise the given minutes |
| BlogCards.PlaceholderImage | script.js:814-819 | fails exactly when the 30-unit cut splits a surrogate pair of the title; otherwise the drawn colour and a caption that is the title's longest prefix of at most 30 code units |
| BlogCards.BmpTitleHasPlaceholder | script.js:817 | a title without characters above U+FFFF always has a placeholder |
| BlogCards.EmojiAtUnit30HasNoPlaceholder | script.js:817 | 29 letters followed by an emoji have no placeholder |
| BlogCards.CardThrowsExactly | script.js:627-655 | a card throws exactly when the tag list is missing or the title's 30-unit cut splits a surrogate pair |
| BlogCards.TagStripOf | script.js:654-655 | the first min(3, n) tags, a "+N" badge exactly when n > 3, and shown plus N equals n |
| BlogCards.CardFor | script.js:617-680 | the card fails exactly when `CardThrows`; otherwise it has the post's title, link and date, the cover or the placeholder, reading time, excerpt or fallback text, tag strip, and counts defaulting to 0 |
| BlogCards.PreviewFor | script.js:772-806 | the preview fails exactly when the tag list is missing; otherwise it has the full tag list, the date, the cover only if present, the reading time, the description or fallback text, and the counts |
| BlogCards.CardTagsArePreviewPrefix | script.js:654-792 | the card's tags are a prefix of the preview's, and the badge counts the rest |
| BlogFeed.Start | script.js:571-573 | while loading: no request and no change; otherwise busy, with that page requested |
| BlogFeed.Finish | script.js:575-615 | always ends idle; failure keeps the list and the button and shows the fallback; success replaces the list for page 1 and appends otherwise; an empty or unrenderable list shows the fallback; after a render the button is shown iff the page held at least 6 items |
| BlogFeed.EmojiTitleBlanksFirstPage | script.js:584-596 | a first page of one tagged article titled with 29 letters and an emoji shows the fallback panel |
| BlogFeed.LoadMore | script.js:727-730 | once listening, every click raises currentPage by one and requests it exactly when no load is running; a click during a load changes nothing else; no click changes the list, the grid, the button or whether the listeners are attached |
| BlogFeed.StepRequest | script.js:727-730 | no event lowers currentPage; a requested page is above the old one |
| BlogFeed.RunReachable | script.js:571-597 | the reachable-state invariant holds along every run, in particular that the list is the delivered pages joined |
| BlogFeed.PostsAreDeliveredPagesInOrder | script.js:584-588 | from start-up, the loaded list equals the successful pages' articles joined in arrival order |
| BlogFeed.RequestsIncrease | script.js:727-730 | the requested pages strictly increase and lie between the starting and the final currentPage |
| BlogFeed.ClickDuringLoadSkipsPage | script.js:727-730 | a click during a load issues no request, and its page number is never requested later |
| BlogFeed.DoubleClickExample | script.js:727-730 | two clicks during the page-2 load, then one after: pages 2 and 4 are requested, page 3 never |
| BlogFeed.PreviewBody | script.js:758-768 | the preview when the post has a tag list, otherwise exactly the error panel with the description or "No description available", never the loading spinner |
| BlogFeed.Opened | script.js:741-768 | no post at the index (absent, NaN, negative or too large): nothing changes; otherwise open with that post's title and link and `PreviewBody` of the post, whose preview carries the full tag list |
| BlogFeed.Closed | script.js:808-812 | hidden, with title, link and body kept |
| BlogFeed.CloseIdempotent | script.js:808-812 | closing twice equals closing once |
| BlogFeed.CardOpensItsPost | script.js:711-716 | a card's preview button opens the post the card shows |
| BlogManager.AdvancedDevToBlogManager.constructor | script.js:555-573 | the modal is hidden and page 1 is loading, with nothing loaded and no listeners yet |
| BlogManager.AdvancedDevToBlogManager.StartLoad | script.js:571-576 | the state and request are `Start` of the old state |
| BlogManager.AdvancedDevToBlogManager.FinishLoad | script.js:577-597 | the state is `Finish` of the old state; the modal is untouched |
| BlogManager.AdvancedDevToBlogManager.RenderBlogPosts | script.js:600-615 | throws exactly when the card of some post throws; otherwise the grid shows a card per post, or the fallback when there are none |
| BlogManager.AdvancedDevToBlogManager.ShowFallbackMessage | script.js:832-845 | the grid shows the fallback; nothing else changes |
| BlogManager.AdvancedDevToBlogManager.UpdateLoadMoreButton | script.js:821-830 | shown iff at least 6 posts were loaded |
| BlogManager.AdvancedDevToBlogManager.OnLoadMoreClick | script.js:725-731 | the state and request are `LoadMore` of the old state |
| BlogManager.AdvancedDevToBlogManager.OpenPostPreview | script.js:741-770 | the modal is `Opened`; the body is locked iff a post was found (or it already was); the loader is untouched |
| BlogManager.AdvancedDevToBlogManager.CloseModal | script.js:808-812 | the modal is `Closed` and the body unlocked |
| BlogManager.CloseTwice | script.js:808-812 | a second close changes nothing |
| App.PressEscape | script.js:478-482 | Escape closes the menu and unlocks the body, keeping the navbar's scroll state; once the blog listens, the modal becomes `Closed` of the old one, otherwise it is unchanged; the loader is untouched |
| App.CloseMenuBehindModal | script.js:85-89 | closing the menu while the preview is open unlocks the page behind the open modal |

## Left out

- Fetching from dev.to, the request URL and `response.json()`: network I/O. They become the `outcome` given to `FinishLoad`, whose successful body is a list of articles. A JSON body that is not an array is not modelled: for page 1 the script stores that value in `this.posts` before the render throws, so the list stops being an array; for a later page, spreading a value that is not iterable throws before anything is stored.
- Date formatting (`toLocaleDateString`): a locale library call. Cards and previews carry the raw `published_at` text.
- HTML and SVG template strings, `innerHTML`, the image swap done by `onerror` (the placeholder it would show is built, and can throw, when the card is) and the CSS injected by the app: presentation only. The grid, cards and modal are abstract records.
- `encodeURIComponent` in `generatePlaceholderImage`: the placeholder keeps the caption before percent-encoding.
- BlogCards.PlaceholderImage: the colour is a parameter, not the `Math.random` draw.
- BlogCards.CardFor: the title is always a string. A missing title would make `generatePlaceholderImage` throw a TypeError on `substring`; the model has no absent title.
- BlogManager.AdvancedDevToBlogManager.RenderBlogPosts: throws only in the two ways `CardThrows` names; the TypeError of a missing title is not modelled, as above.
- FormValidation.ValidateForm: the errors are reported as `FormError` values rather than strings; the string the script pushes for each is its `Text()`, and `TextsIdentifyErrors` shows no information is lost.
- BlogCards.ReadingTime: reading time is a whole number, so `Math.ceil` is the identity. Fractional minutes, and the preview's un-rounded value, are not modelled.
- Debounce, throttle, `setTimeout` animations, `IntersectionObserver`, `scrollTo`/`scrollIntoView`, `PerformanceOptimizer`, `ProjectAnimations`, the skip link, the visibility and error listeners and the service-worker stub: timers, browser APIs or presentation.
- SmoothScroll.handleClick and the Ctrl/Meta+Arrow scrolling: pixel geometry and scrolling. Only the active-link update and the index arithmetic are modelled.
- The page's elements are assumed present: `getElementById` lookups of the grid, the load-more button and the modal never return null here.
- The listeners for outside clicks and nav-link clicks only call `CloseMobileMenu`, and the preview, close and overlay click handlers only call `OpenPostPreview` and `CloseModal`. These methods are modelled; the event dispatch is not.
- The model lets the load-more handler work even while the button is hidden; in the page, a hidden button receives no clicks.
- Local storage: only the written value is kept (`storedTheme`). The value read at start-up is a constructor parameter.
