# Radio Vida: a model of the site's page logic

Radio Vida is a Christian radio station with two transmitters, in Hermosillo
and in Ciudad Obregón. It runs a public web site (home sections, articles,
events, a live player) and an admin panel for editing the site's content.
Each page is a component. The component holds some state, calls a hosted
database and auth service, and renders the result. This project models the
logic inside those components, in Dafny, and proves what that logic
promises:

- the text functions: the article slug, tag stripping, the YouTube URLs and
  the display-order parser;
- the index arithmetic of the video carousel and the gallery lightbox, whose
  wrapping "next" controls share module `Cycle`;
- the small state machines: the audio player, the add/save/delete flow of
  the admin list pages, user creation and password reset;
- the decision functions: the admin route guard and the sidebar's
  active-item and title lookup;
- the list operations: case-insensitive search, delete by id, and filtering
  by day and by city.

How the model is built:

- **One module per page.** Every page or component becomes one module.
  Pure derivations are functions, with lemmas about them.
- **State is a class.** A component's state becomes a class whose fields are
  the state variables. Each event handler is a method, and its `modifies`
  names the fields the handler sets. A fetch the page starts is logged as a
  request; the store's answer to it arrives later through the page's
  `Fetched` method.
- **Outside calls are parameters.** Every call to the store or the auth
  service is a parameter of the method that makes it: the answer the
  service gives (`Store.Outcome`, `Store.Fetch`, and the auth answers of the
  users and reset pages). Every request is appended to a log field of the
  class, so "no write is issued" is a statement about that log. The same
  goes for alerts, confirm prompts, navigations and posts.
- **JavaScript built-ins are written out.** Module `JsText` defines them
  with JavaScript semantics: the `\s` class, `toLowerCase` (ASCII),
  `trim`, `startsWith`, `includes`, and `parseInt` without a radix
  (leading blanks, a sign, `0x`, digits up to the first non-digit). The
  shared idioms `x || ""` and `s || fallback` are in `Wrappers`.
- **Records.** The entity records come from `lib/supabase.ts`, widened to
  the fields the pages read. Those are the city of an event or program,
  the link of an event, the announcement, article and profile shapes that
  file does not define, and the three program types it leaves out.

## Model

| member | source | states |
|---|---|---|
| Wrappers.OrEmpty | app/admin/dashboard/anuncios/page.tsx:73-76 | `x \|\| ""` on an optional text: the value when present, `""` when missing |
| Wrappers.OrElse | app/admin/dashboard/usuarios/page.tsx:196 | `s \|\| fallback` on a text: `s` unless it is empty, then the fallback |
| Store.AfterFetch | app/admin/dashboard/anuncios/page.tsx:54-67 | the list after a fetch: unchanged on an error, the rows when data came back, empty when the answer held no data |
| Records.City.Name | components/events-section.tsx:11 | the two station names are `Hermosillo` and `Obregón`, and each names exactly one city |
| JsText.ToLower | app/articulos/page.tsx:46-49 | same length, each character ASCII-lowercased |
| JsText.LowerChar | app/articulos/page.tsx:46-49 | an ASCII capital maps to its lower case 32 code points on, any other character to itself, and letters and digits stay letters and digits |
| JsText.ToLowerConcat | app/articulos/page.tsx:46-49 | lowercasing distributes over concatenation |
| JsText.TrimStartSpec | app/admin/dashboard/articulos/nuevo/page.tsx:34 | `trimStart` removes exactly the leading `\s` characters and leaves the rest as a suffix |
| JsText.TrimEndSpec | app/admin/dashboard/articulos/nuevo/page.tsx:34 | `trimEnd` removes exactly the trailing `\s` characters and leaves the rest as a prefix |
| JsText.Trim | app/admin/dashboard/articulos/nuevo/page.tsx:34 | definition: `trim` is `trimEnd` after `trimStart`; JsText.TrimStartSpec and JsText.TrimEndSpec state what each removes |
| JsText.TrimStartNoSpace | app/admin/dashboard/articulos/nuevo/page.tsx:34 | a text that does not start with `\s` is left as it is by `trimStart` |
| JsText.ContainsAt | app/articulos/page.tsx:46-49 | `includes` holds iff the needle occurs at some index of the haystack |
| JsText.EmptyQueryMatches | app/articulos/page.tsx:46-49 | every field includes the empty query |
| JsText.IncludesIgnoringCase | app/articulos/page.tsx:46-49 | definition: `field.toLowerCase().includes(query.toLowerCase())`; JsText.ContainsAt and JsText.EmptyQueryMatches state what it accepts |
| JsText.ContainsEmpty | app/articulos/page.tsx:46-49 | every text includes `""` |
| JsText.DecimalString | app/admin/dashboard/anuncios/page.tsx:328 | a number's decimal text is non-empty, all digits, with no leading zero except `"0"` itself |
| JsText.DigitPrefix | app/admin/dashboard/anuncios/page.tsx:328 | `parseInt` reads the longest prefix of digits valid in the radix and stops at the first invalid character |
| JsText.DigitPrefixOfDigits | app/admin/dashboard/anuncios/page.tsx:328 | a run of decimal digits followed by a non-digit is exactly the digit prefix read |
| JsText.UnsignedDecimal | app/admin/dashboard/anuncios/page.tsx:328 | the unsigned reading of a number's decimal text, followed by a non-digit, is that number |
| JsText.DigitsValueOfDecimal | app/admin/dashboard/anuncios/page.tsx:328 | reading back a number's decimal text gives the number |
| JsText.ParseIntOfIntString | app/admin/dashboard/anuncios/page.tsx:328 | `parseInt` of any integer's text, followed by a non-digit (and no `x` after a lone 0), gives that integer; so does `parseInt(..) \|\| 0` |
| JsText.ParseInt | app/admin/dashboard/anuncios/page.tsx:328 | definition: `parseInt(s)` with no radix (leading `\s`, a sign, a `0x` prefix, digits to the first non-digit), `None` for `NaN`; the Parse lemmas state its results |
| JsText.ParseIntOrZero | app/admin/dashboard/anuncios/page.tsx:328 | definition: `parseInt(s) \|\| 0`; JsText.ParseIntOfIntString and AdminCommon.OrderFieldOfNonNumber state its results |
| JsText.ParseIntOfNat | app/admin/dashboard/anuncios/page.tsx:328 | `parseInt` of a natural number's text, followed by a non-digit, gives that number |
| JsText.ParseNonNegative | app/admin/dashboard/anuncios/page.tsx:328 | without a sign, `parseInt` gives the unsigned reading of the digits, or `NaN` when there is none |
| JsText.ParseIntOfNegative | app/admin/dashboard/anuncios/page.tsx:328 | a `-` before a positive number's digits gives its negative |
| SeqOps.Filter | app/admin/dashboard/anuncios/page.tsx:139-142 | `filter` keeps exactly the elements the predicate accepts and is never longer |
| SeqOps.FilterMultiplicity | app/admin/dashboard/anuncios/page.tsx:139-142 | `filter` keeps every copy of an accepted element and no copy of a rejected one, so no duplicate is lost |
| SeqOps.FilterIsSubsequence | app/admin/dashboard/anuncios/page.tsx:139-142 | the result of `filter` is a subsequence of the list, so the fetched order is kept |
| SeqOps.FilterAll | app/admin/dashboard/anuncios/page.tsx:139-142 | a predicate every element meets keeps the whole list |
| NewArticle.DropUnsafe | app/admin/dashboard/articulos/nuevo/page.tsx:35 | `replace(/[^\w\s-]/g, "")` never lengthens the text; NewArticle.DropUnsafeKeeps states which characters stay |
| NewArticle.DropUnsafeKeeps | app/admin/dashboard/articulos/nuevo/page.tsx:35 | exactly the word characters, `\s` and `-` of the input survive the first replace |
| NewArticle.DashRuns | app/admin/dashboard/articulos/nuevo/page.tsx:36 | the `/[\s_-]+/g` → `-` replacement; a definition without an ensures of its own, stated by DashRunsShape, DashRunsCons, DashRunsConcat, RunBecomesOneDash and DashRunsKeepsWords |
| NewArticle.DashRunsShape | app/admin/dashboard/articulos/nuevo/page.tsx:36 | after `replace(/[\s_-]+/g, "-")`: only dashes and non-separators of the input remain, no `--`, no dash at the start of a run already replaced, and every non-separator of the input is kept |
| NewArticle.DashRunsConcat | app/admin/dashboard/articulos/nuevo/page.tsx:36 | the replacement of `x + y` is the replacement of `x` followed by that of `y`, read in the state `x` ends in |
| NewArticle.DashRunsCons | app/admin/dashboard/articulos/nuevo/page.tsx:36 | one character emits itself, one dash (the first of a run) or nothing (later in a run) |
| NewArticle.NoSeparatorsUnchanged | app/admin/dashboard/articulos/nuevo/page.tsx:36 | text without `\s`, `_` or `-` passes through unchanged |
| NewArticle.RunBecomesOneDash | app/admin/dashboard/articulos/nuevo/page.tsx:36 | a run of separators between two words becomes exactly one `-` |
| NewArticle.DashRunsKeepsWords | app/admin/dashboard/articulos/nuevo/page.tsx:36 | the replacement keeps all the non-separators, in their order: dashes aside, the output is the input without its separators |
| NewArticle.TrimLeadingDashes | app/admin/dashboard/articulos/nuevo/page.tsx:37 | the `^-+` half of the final replacement; a definition without an ensures of its own, stated by TrimLeadingDashesSpec |
| NewArticle.TrimTrailingDashes | app/admin/dashboard/articulos/nuevo/page.tsx:37 | the `-+$` half of the final replacement; a definition without an ensures of its own, stated by TrimTrailingDashesSpec |
| NewArticle.TrimLeadingDashesSpec | app/admin/dashboard/articulos/nuevo/page.tsx:37 | the `^-+` half of the last replace removes exactly the leading dashes and leaves a suffix that does not start with `-` |
| NewArticle.TrimTrailingDashesSpec | app/admin/dashboard/articulos/nuevo/page.tsx:37 | the `-+$` half of the last replace removes exactly the trailing dashes and leaves a prefix that does not end with `-` |
| NewArticle.GenerateSlug | app/admin/dashboard/articulos/nuevo/page.tsx:31-38 | definition: the five steps in the source's order; the Slug lemmas below state what the slug is |
| NewArticle.SlugCanonical | app/admin/dashboard/articulos/nuevo/page.tsx:31-38 | `trim` adds nothing: the slug is the canonical form of the lowercased, cleaned title |
| NewArticle.SlugIsWellFormed | app/admin/dashboard/articulos/nuevo/page.tsx:31-38 | a slug holds only `a`-`z`, `0`-`9` and `-`, never starts or ends with `-` and never contains `--` |
| NewArticle.SlugFixedPoint | app/admin/dashboard/articulos/nuevo/page.tsx:31-38 | a text is its own slug iff it is a well-formed slug |
| NewArticle.SlugIdempotent | app/admin/dashboard/articulos/nuevo/page.tsx:31-38 | slugging a slug gives it back |
| NewArticle.SlugEmpty | app/admin/dashboard/articulos/nuevo/page.tsx:33-37 | the slug is empty iff the title has no ASCII letter or digit, so punctuation and blanks give `""` |
| NewArticle.SlugDeletes | app/admin/dashboard/articulos/nuevo/page.tsx:35 | a character outside letters, digits, `_`, `\s` and `-` (such as `ó` or `¿`) is deleted, not replaced by a dash |
| NewArticle.SlugIgnoresLeadingSeparators | app/admin/dashboard/articulos/nuevo/page.tsx:34-37 | whitespace, `_` and `-` before a title leave its slug unchanged |
| NewArticle.SlugIgnoresTrailingSeparators | app/admin/dashboard/articulos/nuevo/page.tsx:34-37 | whitespace, `_` and `-` after a title leave its slug unchanged |
| NewArticle.CanonAppendsWord | app/admin/dashboard/articulos/nuevo/page.tsx:36-37 | on cleaned text, a run of separators and one more word after the last word add one `-` and that word |
| NewArticle.SlugAppendsWord | app/admin/dashboard/articulos/nuevo/page.tsx:31-38 | a title with a letter or digit, then a run of separators, then a lower-case word: the slug is the title's slug, one `-` and the word, so the slug of words joined by separators is the words joined by single dashes |
| NewArticle.InsertFailedAlert | app/admin/dashboard/articulos/nuevo/page.tsx:64-71 | the unique-violation code `23505` gives the duplicate-title alert; any other code the save-failed text with the message |
| NewArticle.Payload | app/admin/dashboard/articulos/nuevo/page.tsx:53-62 | the inserted row; a definition without an ensures of its own, stated by PayloadIsWellFormed and by HandleSubmit, which inserts exactly it |
| NewArticle.PayloadIsWellFormed | app/admin/dashboard/articulos/nuevo/page.tsx:53-62 | the inserted row carries the title, the content, the author, `likes_count` 0 and the title's slug, which is well formed |
| NewArticle.NewArticlePage.constructor | app/admin/dashboard/articulos/nuevo/page.tsx:22-29 | not loading, an empty form, nothing sent |
| NewArticle.NewArticlePage.Edit | app/admin/dashboard/articulos/nuevo/page.tsx:105-151 | the inputs' `onChange` handlers replace the form with the edited one |
| NewArticle.NewArticlePage.HandleSubmit | app/admin/dashboard/articulos/nuevo/page.tsx:40-80 | without a user: the login alert, a push to `/admin/login`, no insert; with one: exactly one insert of the payload; on success a push to the article list, on error the alert for its code and no navigation; never loading afterwards |
| ArticleList.StripTags | app/articulos/page.tsx:113 | `replace(/<[^>]*>/g, "")` is never longer, only keeps input characters and leaves no `<` followed later by `>` |
| ArticleList.StripTagSpan | app/articulos/page.tsx:113 | the first tag, from a `<` to the first `>` after it, is deleted and nothing else: the text before it stays, and stripping resumes after it |
| ArticleList.StripExample | app/articulos/page.tsx:113 | `a<b>c` strips to `ac` |
| ArticleList.StripIsSubsequence | app/articulos/page.tsx:113 | the stripped title is a subsequence of the title |
| ArticleList.StripWithoutTag | app/articulos/page.tsx:113 | a title with no tag (in particular one with no `<`) is returned unchanged |
| ArticleList.StripShortens | app/articulos/page.tsx:113 | a title with a tag loses at least one character |
| ArticleList.StripFixedPoint | app/articulos/page.tsx:113 | a title is its own stripping iff it holds no tag |
| ArticleList.StripIdempotent | app/articulos/page.tsx:113 | stripping twice is stripping once |
| ArticleList.SearchArticles | app/articulos/page.tsx:46-49 | an article is kept iff its lowercased title or author contains the lowercased query, in fetched order, with every copy of a kept article kept |
| ArticleList.EmptySearchKeepsAll | app/articulos/page.tsx:96 | the "Ver todos" query `""` shows every article |
| VideoCarousel.TotalSlides | components/videos-section.tsx:34-35 | `ceil(n/3)`: 0 for no videos, else the least `t` with `3t >= n` |
| VideoCarousel.NextSlide | components/videos-section.tsx:37-40 | `(s + 1) % total`: the next slide, the last wrapping to 0, always in range |
| VideoCarousel.PrevSlide | components/videos-section.tsx:42-45 | `(s - 1 + total) % total`: the previous slide, 0 wrapping to the last, always in range |
| VideoCarousel.PrevUndoesNext | components/videos-section.tsx:37-45 | the previous button undoes the next button and vice versa |
| VideoCarousel.NextAllTheWayRound | components/videos-section.tsx:37-40 | `total` presses of the next arrow (`NextStep`, the `nextSlide` update) come back to the starting slide |
| VideoCarousel.Page | components/videos-section.tsx:47-50 | the slide's slice: at most 3 videos, at least 1 on a slide that exists, each the video at `3s + i` |
| VideoCarousel.Pages | components/videos-section.tsx:47-50 | definition: the first `k` slides concatenated; VideoCarousel.PagesArePrefix states they are the first `3k` videos |
| VideoCarousel.PagesArePrefix | components/videos-section.tsx:47-50 | the first `k` slides together are the first `3k` videos |
| VideoCarousel.SlidesCoverVideos | components/videos-section.tsx:34-50 | all slides together are exactly the video list |
| VideoCarousel.AbsoluteIndex | components/videos-section.tsx:52-55 | definition: `currentSlide * 3 + index`; VideoCarousel.ClickedCardIsShown states it names the clicked card |
| VideoCarousel.ClickedCardIsShown | components/videos-section.tsx:52-55 | the absolute index `3s + i` of a shown card is a valid index and names that card's video |
| VideoCarousel.VideosSection.constructor | components/videos-section.tsx:9-12 | no videos, loading, no active video, slide 0 |
| VideoCarousel.VideosSection.Fetched | components/videos-section.tsx:14-32 | the fetched list on success, the old one otherwise; loading ends |
| VideoCarousel.VideosSection.NextSlideClicked | components/videos-section.tsx:37-40 | the slide advances and the active video is cleared |
| VideoCarousel.VideosSection.PrevSlideClicked | components/videos-section.tsx:42-45 | the slide goes back and the active video is cleared |
| VideoCarousel.VideosSection.IndicatorClicked | components/videos-section.tsx:162-165 | the chosen slide is shown and the active video is cleared |
| VideoCarousel.VideosSection.VideoClicked | components/videos-section.tsx:52-55 | the clicked card becomes the active video, at an index inside the list |
| VideoCarousel.VideosSection.CurrentVideos | components/videos-section.tsx:47-50 | `getCurrentVideos()`, the current slide's `Page`; stated by Page's ensures and PagesArePrefix |
| VideoCarousel.VideosSection.IsActive | components/videos-section.tsx:85-86 | whether the card shows the player; VideoClicked ensures the clicked card is active |
| GalleryLightbox.NextIndex | components/gallery-section.tsx:64-67 | the next image, the last wrapping to the first, always in range |
| GalleryLightbox.PrevIndex | components/gallery-section.tsx:59-62 | the previous image, the first wrapping to the last, always in range |
| GalleryLightbox.PrevUndoesNext | components/gallery-section.tsx:59-67 | previous after next, and next after previous, restore the image |
| GalleryLightbox.SixNextsAreIdentity | components/gallery-section.tsx:64-67 | six presses of `goToNext` (`NextStep`) on the six-image gallery are the identity |
| Cycle.IterateSteps | components/gallery-section.tsx:64-67 | short of the last position, `k` presses of a wrapping next control move exactly `k` on |
| Cycle.IterateSplit | components/videos-section.tsx:37-40 | `a + b` presses are `a` presses followed by `b` more |
| Cycle.AllTheWayRound | components/gallery-section.tsx:64-67 | one press per position of a wrapping next control returns to the start; used for both the slide arrow and the lightbox |
| GalleryLightbox.GalleryTable | components/gallery-section.tsx:7-44 | six images, numbered 1 to 6 in order |
| GalleryLightbox.BodyStyle.constructor | components/gallery-section.tsx:51-56 | the page body's `overflow` style starts as given |
| GalleryLightbox.GallerySection.constructor | components/gallery-section.tsx:47 | nothing selected |
| GalleryLightbox.GallerySection.Shown | components/gallery-section.tsx:114-148 | the lightbox shows iff an image is selected, and it shows that image |
| GalleryLightbox.GallerySection.OpenLightbox | components/gallery-section.tsx:49-52 | the image is selected and page scrolling is locked (`hidden`) |
| GalleryLightbox.GallerySection.CloseLightbox | components/gallery-section.tsx:54-57 | nothing is selected and scrolling is restored (`auto`) |
| GalleryLightbox.GallerySection.GoToPrevious | components/gallery-section.tsx:59-62 | with nothing selected nothing changes; otherwise the previous image |
| GalleryLightbox.GallerySection.GoToNext | components/gallery-section.tsx:64-67 | with nothing selected nothing changes; otherwise the next image |
| Player.StreamUrl | contexts/player-context.tsx:28-31 | the stream table; a definition without an ensures of its own, stated by StreamUrlInjective and used by SetCity and TogglePlay |
| Player.StreamUrlInjective | contexts/player-context.tsx:28-31 | the two stations have different streams |
| Player.AppliedVolume | contexts/player-context.tsx:62-66 | the element's volume is 0 when muted and the chosen volume otherwise |
| Player.Audio.constructor | contexts/player-context.tsx:35 | `new Audio(src)`: on that stream, at full volume, stopped, default preload, no `play()` made |
| Player.Audio.Play | contexts/player-context.tsx:77 | every call is logged with the element's stream; it either succeeds and plays, or is refused and changes nothing else |
| Player.Audio.Pause | contexts/player-context.tsx:74 | `pause()` stops the element |
| Player.Audio.Load | contexts/player-context.tsx:55 | `load()` restarts the element on its source, stopped |
| Player.PlayerProvider.constructor | contexts/player-context.tsx:20-43 | not playing, volume 80, not muted, not loading, Hermosillo, and a fresh element on the Hermosillo stream, stopped, at 80 %, with `preload` none and no `play()` made |
| Player.PlayerProvider.TogglePlay | contexts/player-context.tsx:68-84 | while playing: paused, not playing and no `play()`; while paused: exactly one `play()` of the current stream, playing exactly when it succeeded; never loading afterwards; without an element nothing changes |
| Player.PlayerProvider.ToggleMute | contexts/player-context.tsx:86-88 | mute flips, the element's volume follows it, and nothing is played or stopped |
| Player.PlayerProvider.SetVolume | contexts/player-context.tsx:62-66 | the volume is set and the element plays at it, unless muted; nothing is played or stopped |
| Player.PlayerProvider.SetCity | contexts/player-context.tsx:46-60 | the element is on the new station's stream and `isPlaying` is unchanged; a playing player switching to another city makes exactly one `play()` of the new stream, any other call none, and a stopped player stays silent |
| Player.PlayerProvider.Unmount | contexts/player-context.tsx:39-42 | the element is paused and dropped |
| Player.ToggleMuteTwice | contexts/player-context.tsx:86-88 | two presses of mute restore the mute state and leave the volume alone |
| RadioPlayer.ButtonGlyphOf | components/radio-player.tsx:58-64 | the spinner exactly while loading, else pause exactly while playing, else play |
| RadioPlayer.VolumeGlyphOf | components/radio-player.tsx:74-78 | the muted glyph iff muted or volume 0 |
| RadioPlayer.ViewOf | components/radio-player.tsx:33-86 | the whole bar: the glyphs, the slider at 0 when muted and at the volume otherwise, the button disabled iff loading, the live dot and pulsing logo iff playing |
| RadioPlayer.ViewOfProvider | components/radio-player.tsx:10-18 | the bar reads the provider: the live dot iff it is playing, the button disabled iff it is loading |
| RadioPlayer.DisabledIffSpinner | components/radio-player.tsx:53-64 | the button is disabled exactly while it shows the spinner |
| RadioPlayer.SliderShowsAppliedVolume | components/radio-player.tsx:74-86 | the slider shows the volume the element plays at, and the muted glyph appears iff that is 0 |
| RadioPlayer.OnSliderChange | components/radio-player.tsx:80-86 | the slider's values (0 to 100, step 1) are all accepted by `setVolume` |
| RouteGuard.Middleware | middleware.ts:4-63 | every redirect goes to `/admin/login` |
| RouteGuard.PublicPagesPass | middleware.ts:8-10 | the login and reset pages always pass |
| RouteGuard.RedirectTargetPasses | middleware.ts:8-10 | the page a redirect goes to is never itself redirected |
| RouteGuard.OutsideAdminPasses | middleware.ts:13-62 | paths outside `/admin` pass |
| RouteGuard.MissingSettingsPass | middleware.ts:19-22 | without both settings every path passes |
| RouteGuard.GuardedPassesIffVerified | middleware.ts:33-59 | a guarded path passes iff the client is built, a non-empty token is sent and the service finds its user; otherwise it goes to login |
| RouteGuard.PrefixIsTextual | middleware.ts:13 | `/adminx` is guarded like an admin page |
| RouteGuard.Route | middleware.ts:65-67 | the middleware runs only on `/admin` and paths below it |
| RouteGuard.MatcherApplies | middleware.ts:65-67 | definition: `/admin` and the paths below it; RouteGuard.Route and RouteGuard.AdminxIsNotMatched state what it matches |
| RouteGuard.MatchedPathsAreUnderPrefix | middleware.ts:13-67 | every matched path passes the prefix test, so the final fall-through is unreachable |
| RouteGuard.AdminxIsNotMatched | middleware.ts:65-67 | `/adminx` is not matched, so it never reaches the middleware |
| RouteGuard.SplitAt | middleware.ts:33 | the text before the first occurrence of the character does not contain it; without one the whole text and `""`; with one the text is the part before, the character and the part after |
| RouteGuard.SplitAtPrefix | middleware.ts:33 | splitting `a + c + b`, with no `c` in `a`, gives `a` and `b` |
| RouteGuard.CookiePair | middleware.ts:33 | a cookie's name has no `=` and its value no `;`; a cookie without `=` is all name |
| RouteGuard.CookiePairOf | middleware.ts:33 | `name=value;...` is read as that name and that value |
| RouteGuard.LoginCookie | app/admin/login/page.tsx:44 | definition: the cookie text the login page writes; RouteGuard.LoginCookieIsRead states the middleware reads it back |
| RouteGuard.LoginCookieIsRead | app/admin/login/page.tsx:44 | the cookie the login page writes is read by the middleware as `sb-access-token` with the session's token |
| DashboardLayout.FirstWhere | app/admin/dashboard/layout.tsx:154 | `find`: the first index that satisfies the test, or none |
| DashboardLayout.IsActive | app/admin/dashboard/layout.tsx:103 | definition: the path is the item's or lies below it; DashboardLayout.SectionHighlightsDashboardToo and DashboardLayout.SiblingPrefixIsNotActive state its cases |
| DashboardLayout.HeaderTitle | app/admin/dashboard/layout.tsx:154 | definition: the first active item's name, else "Dashboard"; DashboardLayout.EveryDashboardPageIsTitledDashboard states the result |
| DashboardLayout.NavigationShape | app/admin/dashboard/layout.tsx:22-29 | six items, Dashboard first, each other under `/admin/dashboard/` with a one-segment slug, the slugs starting with distinct letters |
| DashboardLayout.UnderSectionIsUnderDashboard | app/admin/dashboard/layout.tsx:103 | a section's pages lie below the dashboard's path |
| DashboardLayout.IntendedActiveOnlyInOwnSection | app/admin/dashboard/layout.tsx:103 | with Dashboard matched exactly, a section's pages highlight that section and no other item |
| DashboardLayout.SiblingPrefixIsNotActive | app/admin/dashboard/layout.tsx:103 | `/admin/dashboardx` does not activate Dashboard |
| DashboardLayout.NullPathActivatesNothing | app/admin/dashboard/layout.tsx:103-154 | with no path nothing is active and the title is "Dashboard" |
| DashboardLayout.EveryDashboardPageIsTitledDashboard | app/admin/dashboard/layout.tsx:22-29 | Dashboard comes first and matches by prefix, so every page below it is titled "Dashboard" |
| DashboardLayout.SectionHighlightsDashboardToo | app/admin/dashboard/layout.tsx:103 | a section's pages highlight both Dashboard and the section |
| DashboardLayout.OneSegment | app/admin/dashboard/layout.tsx:22-29 | a path lies under at most one section |
| DashboardLayout.ArticlesPageTitle | app/admin/dashboard/layout.tsx:154 | the articles page is titled "Dashboard" although its item is "Artículos" |
| DashboardLayout.IntendedTitleNamesSection | app/admin/dashboard/layout.tsx:154 | with Dashboard matched exactly, each section's pages carry the section's name |
| DashboardLayout.IntendedTitleOfDashboard | app/admin/dashboard/layout.tsx:154 | with Dashboard matched exactly, its own page is still titled "Dashboard" |
| DashboardLayout.AdminLayout.constructor | app/admin/dashboard/layout.tsx:38-39 | the sidebar closed, no user, nothing done yet |
| DashboardLayout.AdminLayout.AuthChecked | app/admin/dashboard/layout.tsx:41-51 | no user: a push to `/admin/login` and the spinner stays; a user: it is recorded; a rejected `getUser`: nothing changes, so the spinner stays |
| DashboardLayout.AdminLayout.Logout | app/admin/dashboard/layout.tsx:53-56 | sign-out happens before the push to `/admin/login` |
| DashboardLayout.AdminLayout.MenuClicked | app/admin/dashboard/layout.tsx:147 | the sidebar opens |
| DashboardLayout.AdminLayout.CloseClicked | app/admin/dashboard/layout.tsx:72 | the overlay and the close button close the sidebar |
| DashboardLayout.AdminLayout.NavClicked | app/admin/dashboard/layout.tsx:105-108 | a nav click closes the sidebar and navigates to the item |
| AdminCommon.RemoveById | app/admin/dashboard/anuncios/page.tsx:135 | `filter(x => x.id !== id)` keeps exactly the other records, in order, every copy of each |
| AdminCommon.RemoveAbsentId | app/admin/dashboard/anuncios/page.tsx:135 | removing an id no record carries changes nothing |
| AdminCommon.RemoveUniqueId | app/admin/dashboard/anuncios/page.tsx:135 | with distinct ids, removing one record's id takes out exactly that record |
| AdminCommon.FilterDropsOne | app/admin/dashboard/anuncios/page.tsx:135 | a filter that rejects exactly one position drops exactly that element |
| AdminCommon.SaveCall | app/admin/dashboard/anuncios/page.tsx:101-112 | an update of the edited record's id, else an insert |
| AdminCommon.SaveRequests | app/admin/dashboard/anuncios/page.tsx:101-116 | the write, then a refetch iff the write succeeded |
| AdminCommon.OrderField | app/admin/dashboard/anuncios/page.tsx:328 | definition: `parseInt(value) \|\| 0`; the three OrderField lemmas state what it reads |
| AdminCommon.OrderFieldExamples | app/admin/dashboard/galeria/page.tsx:274 | the order input reads `"3"` as 3, `"2.7"` as 2 and `""` as 0 |
| AdminCommon.OrderFieldReadsInteger | app/admin/dashboard/anuncios/page.tsx:328 | any integer typed, with anything but a digit after it, is read back |
| AdminCommon.OrderFieldOfNonNumber | app/admin/dashboard/anuncios/page.tsx:328 | text that does not start a number reads as 0 |
| AnnouncementsAdmin.AddForm | app/admin/dashboard/anuncios/page.tsx:81-89 | the add dialog: empty text, order one past the list, active |
| AnnouncementsAdmin.EditForm | app/admin/dashboard/anuncios/page.tsx:72-79 | the edit dialog copies the record, a missing text field as `""` |
| AnnouncementsAdmin.EditFormRoundTrip | app/admin/dashboard/anuncios/page.tsx:72-112 | saving an unchanged edit writes the record back, missing text now `""` |
| AnnouncementsAdmin.SearchAnnouncements | app/admin/dashboard/anuncios/page.tsx:139-142 | kept iff title or description (missing = `""`) includes the term, ignoring case, in order, every copy of each |
| AnnouncementsAdmin.EmptySearchKeepsAll | app/admin/dashboard/anuncios/page.tsx:139-142 | an empty search keeps every record |
| AnnouncementsAdmin.AnnouncementsPage.constructor | app/admin/dashboard/anuncios/page.tsx:34-52 | no records, loading, an empty search, the dialog closed, no edit, not saving, the add form's defaults, and the mount fetch sent |
| AnnouncementsAdmin.AnnouncementsPage.Fetched | app/admin/dashboard/anuncios/page.tsx:54-67 | the fetched rows on success, the old list on an error; loading ends |
| AnnouncementsAdmin.AnnouncementsPage.SearchChanged | app/admin/dashboard/anuncios/page.tsx:165 | the search box sets the term the table filters by |
| AnnouncementsAdmin.AnnouncementsPage.ActiveChanged | app/admin/dashboard/anuncios/page.tsx:271 | the switch sets `active` and no other field |
| AnnouncementsAdmin.AnnouncementsPage.TitleChanged | app/admin/dashboard/anuncios/page.tsx:283 | the input sets the title and no other field |
| AnnouncementsAdmin.AnnouncementsPage.ImageUrlChanged | app/admin/dashboard/anuncios/page.tsx:295 | the input sets the image URL and no other field |
| AnnouncementsAdmin.AnnouncementsPage.DescriptionChanged | app/admin/dashboard/anuncios/page.tsx:308 | the input sets the description and no other field |
| AnnouncementsAdmin.AnnouncementsPage.LinkUrlChanged | app/admin/dashboard/anuncios/page.tsx:319 | the input sets the link and no other field |
| AnnouncementsAdmin.AnnouncementsPage.HandleOpenDialog | app/admin/dashboard/anuncios/page.tsx:69-92 | the add or edit form, and the dialog opens |
| AnnouncementsAdmin.AnnouncementsPage.DialogOpenChanged | app/admin/dashboard/anuncios/page.tsx:256 | the dialog's own close sets it open or closed as asked |
| AnnouncementsAdmin.AnnouncementsPage.CancelClicked | app/admin/dashboard/anuncios/page.tsx:345 | "Cancelar" closes the dialog, except while a save runs, when the button is disabled and nothing changes |
| AnnouncementsAdmin.AnnouncementsPage.OrderChanged | app/admin/dashboard/anuncios/page.tsx:328 | the order field becomes `parseInt(text) \|\| 0` |
| AnnouncementsAdmin.AnnouncementsPage.HandleSave | app/admin/dashboard/anuncios/page.tsx:94-122 | an empty image URL: the alert and no request; else the write and, on success, the dialog closes and a refetch; on failure the alert with the message; `saving` is false afterwards |
| AnnouncementsAdmin.AnnouncementsPage.HandleDelete | app/admin/dashboard/anuncios/page.tsx:124-137 | declined: nothing sent or changed; confirmed: the delete, then the record removed on success or the alert on failure |
| GalleryAdmin.AddForm | app/admin/dashboard/galeria/page.tsx:73-79 | the add dialog: empty text, order one past the list |
| GalleryAdmin.EditForm | app/admin/dashboard/galeria/page.tsx:65-71 | the edit dialog copies the record, a missing title or alt as `""` |
| GalleryAdmin.EditFormRoundTrip | app/admin/dashboard/galeria/page.tsx:65-104 | saving an unchanged edit writes the record back, missing text now `""` |
| GalleryAdmin.SearchImages | app/admin/dashboard/galeria/page.tsx:129-132 | kept iff title or alt (missing = `""`) includes the term, ignoring case, in order, every copy of each |
| GalleryAdmin.EmptySearchKeepsAll | app/admin/dashboard/galeria/page.tsx:129-132 | an empty search keeps every image |
| GalleryAdmin.GalleryPage.constructor | app/admin/dashboard/galeria/page.tsx:30-46 | no images, loading, an empty search, the dialog closed, no edit, not saving, an empty form, and the mount fetch sent |
| GalleryAdmin.GalleryPage.Fetched | app/admin/dashboard/galeria/page.tsx:48-61 | the fetched rows on success, the old list on an error; loading ends |
| GalleryAdmin.GalleryPage.SearchChanged | app/admin/dashboard/galeria/page.tsx:155 | the search box sets the term the table filters by |
| GalleryAdmin.GalleryPage.TitleChanged | app/admin/dashboard/galeria/page.tsx:241 | the input sets the title and no other field |
| GalleryAdmin.GalleryPage.SrcChanged | app/admin/dashboard/galeria/page.tsx:252 | the input sets the image URL and no other field |
| GalleryAdmin.GalleryPage.AltChanged | app/admin/dashboard/galeria/page.tsx:263 | the input sets the alt text and no other field |
| GalleryAdmin.GalleryPage.HandleOpenDialog | app/admin/dashboard/galeria/page.tsx:63-82 | the add or edit form, and the dialog opens |
| GalleryAdmin.GalleryPage.DialogOpenChanged | app/admin/dashboard/galeria/page.tsx:225 | the dialog's own close sets it open or closed as asked |
| GalleryAdmin.GalleryPage.CancelClicked | app/admin/dashboard/galeria/page.tsx:290 | "Cancelar" closes the dialog, except while a save runs, when the button is disabled and nothing changes |
| GalleryAdmin.GalleryPage.OrderChanged | app/admin/dashboard/galeria/page.tsx:274 | the order field becomes `parseInt(text) \|\| 0` |
| GalleryAdmin.GalleryPage.HandleSave | app/admin/dashboard/galeria/page.tsx:84-112 | an empty image URL: the alert and no request; else the write, then close and refetch or the alert; `saving` is false afterwards |
| GalleryAdmin.GalleryPage.HandleDelete | app/admin/dashboard/galeria/page.tsx:114-127 | declined: nothing; confirmed: the delete, then the image removed or the alert |
| VideosAdmin.Thumbnail | app/admin/dashboard/videos/page.tsx:126 | the thumbnail URL is the fixed prefix, the id, then the fixed suffix `/mqdefault.jpg` |
| VideosAdmin.WatchUrl | app/admin/dashboard/videos/page.tsx:194 | the watch link is the fixed prefix followed by the id |
| VideosAdmin.ThumbnailInjective | app/admin/dashboard/videos/page.tsx:126 | distinct ids give distinct thumbnails |
| VideosAdmin.WatchUrlInjective | app/admin/dashboard/videos/page.tsx:194 | distinct ids give distinct watch links |
| VideosAdmin.EditForm | app/admin/dashboard/videos/page.tsx:60-75 | the edit dialog copies the title (missing = `""`) and the id |
| VideosAdmin.Complete | app/admin/dashboard/videos/page.tsx:78 | the save check `title && youtube_id`; a definition without an ensures of its own, stated by EditFormComplete and by HandleSave's branches |
| VideosAdmin.EditFormComplete | app/admin/dashboard/videos/page.tsx:60-81 | an edited record passes the save check iff it has a non-empty title and id; the add form never does |
| VideosAdmin.SearchVideos | app/admin/dashboard/videos/page.tsx:122-124 | kept iff the title (missing = `""`) includes the term, ignoring case, in order, every copy of each |
| VideosAdmin.EmptySearchKeepsAll | app/admin/dashboard/videos/page.tsx:122-124 | an empty search keeps every video |
| VideosAdmin.VideosPage.constructor | app/admin/dashboard/videos/page.tsx:29-43 | no videos, loading, an empty search, the dialog closed, no edit, not saving, an empty form, and the mount fetch sent |
| VideosAdmin.VideosPage.Fetched | app/admin/dashboard/videos/page.tsx:45-58 | the fetched rows on success, the old list on an error; loading ends |
| VideosAdmin.VideosPage.SearchChanged | app/admin/dashboard/videos/page.tsx:149 | the search box sets the term the table filters by |
| VideosAdmin.VideosPage.TitleChanged | app/admin/dashboard/videos/page.tsx:232 | the input sets the title and no other field |
| VideosAdmin.VideosPage.YoutubeIdChanged | app/admin/dashboard/videos/page.tsx:243 | the input sets the YouTube id and no other field |
| VideosAdmin.VideosPage.HandleOpenDialog | app/admin/dashboard/videos/page.tsx:60-75 | the cleared or the copied form, and the dialog opens |
| VideosAdmin.VideosPage.DialogOpenChanged | app/admin/dashboard/videos/page.tsx:216 | the dialog's own close sets it open or closed as asked |
| VideosAdmin.VideosPage.CancelClicked | app/admin/dashboard/videos/page.tsx:262 | "Cancelar" closes the dialog, except while a save runs, when the button is disabled and nothing changes |
| VideosAdmin.VideosPage.HandleSave | app/admin/dashboard/videos/page.tsx:77-105 | an empty title or id: the alert and no request; else the write, then close and refetch or the alert; `saving` is false afterwards |
| VideosAdmin.VideosPage.HandleDelete | app/admin/dashboard/videos/page.tsx:107-120 | declined: nothing; confirmed: the delete, then the video removed or the alert |
| ScheduleAdmin.TypeToIcon | app/admin/dashboard/programacion/page.tsx:317-330 | a listed type's icon, an unknown type `"Clock"` |
| ScheduleAdmin.DisplayIcon | app/admin/dashboard/programacion/page.tsx:53-62 | a listed type's drawn icon, an unknown type Music |
| ScheduleAdmin.IconTablesAgree | app/admin/dashboard/programacion/page.tsx:211 | both tables know the same eight types and agree on each; they part only on unknown types, stored as Clock and drawn as Music |
| ScheduleAdmin.ProgramsByDay | app/admin/dashboard/programacion/page.tsx:164 | exactly the programs of that day, in fetched order, every copy of each |
| ScheduleAdmin.EachProgramUnderOneTab | app/admin/dashboard/programacion/page.tsx:164 | a program is listed under its own day's tab and no other |
| ScheduleAdmin.TabsCoverSchedule | app/admin/dashboard/programacion/page.tsx:43-51 | when every program falls on one of distinct tab days, the tabs together list each program once |
| ScheduleAdmin.DaysAreDistinct | app/admin/dashboard/programacion/page.tsx:43-51 | the seven day ids are distinct |
| ScheduleAdmin.AddForm | app/admin/dashboard/programacion/page.tsx:113-122 | the add dialog: the active day, empty text, type music, icon Music, Hermosillo |
| ScheduleAdmin.EditForm | app/admin/dashboard/programacion/page.tsx:101-111 | the edit dialog copies the record, a missing city as Hermosillo |
| ScheduleAdmin.AddFormIconMatchesType | app/admin/dashboard/programacion/page.tsx:113-122 | the new form's icon is the one its type selects |
| ScheduleAdmin.SchedulePage.constructor | app/admin/dashboard/programacion/page.tsx:65-83 | Monday active, no programs, loading, the dialog closed, no edit, the default form, and the mount fetch sent |
| ScheduleAdmin.SchedulePage.Fetched | app/admin/dashboard/programacion/page.tsx:85-98 | the fetched rows on success, the old list on an error; loading ends |
| ScheduleAdmin.SchedulePage.ActiveDayChanged | app/admin/dashboard/programacion/page.tsx:179 | the day tabs set the active day |
| ScheduleAdmin.SchedulePage.DayChanged | app/admin/dashboard/programacion/page.tsx:270 | the select sets the day and no other field |
| ScheduleAdmin.SchedulePage.TimeChanged | app/admin/dashboard/programacion/page.tsx:289 | the input sets the time and no other field |
| ScheduleAdmin.SchedulePage.TitleChanged | app/admin/dashboard/programacion/page.tsx:299 | the input sets the title and no other field |
| ScheduleAdmin.SchedulePage.HostChanged | app/admin/dashboard/programacion/page.tsx:309 | the input sets the host and no other field |
| ScheduleAdmin.SchedulePage.CityChanged | app/admin/dashboard/programacion/page.tsx:353 | the select sets the city and no other field |
| ScheduleAdmin.SchedulePage.HandleOpenDialog | app/admin/dashboard/programacion/page.tsx:100-125 | the add or edit form, and the dialog opens |
| ScheduleAdmin.SchedulePage.DialogOpenChanged | app/admin/dashboard/programacion/page.tsx:258 | the dialog's own close sets it open or closed as asked; the "Cancelar" button of line 366, never disabled here, is the same call with `false` |
| ScheduleAdmin.SchedulePage.TypeChanged | app/admin/dashboard/programacion/page.tsx:316-331 | type and icon change together, the icon being the one the type selects |
| ScheduleAdmin.SchedulePage.HandleSave | app/admin/dashboard/programacion/page.tsx:127-147 | the write is sent whatever the fields hold; then close and refetch, or the alert |
| ScheduleAdmin.SchedulePage.HandleDelete | app/admin/dashboard/programacion/page.tsx:149-162 | declined: nothing; a successful delete refetches instead of editing the list; a failed one alerts |
| EventsAdmin.SearchEvents | app/admin/dashboard/eventos/page.tsx:66-69 | kept iff title or location includes the term, ignoring case, in order, every copy of each |
| EventsAdmin.EmptySearchKeepsAll | app/admin/dashboard/eventos/page.tsx:66-69 | an empty search keeps every event |
| EventsAdmin.EventsPage.constructor | app/admin/dashboard/eventos/page.tsx:28-34 | no events, loading, an empty search, and the mount fetch sent |
| EventsAdmin.EventsPage.Fetched | app/admin/dashboard/eventos/page.tsx:36-49 | the fetched rows on success, the old list on an error; loading ends |
| EventsAdmin.EventsPage.SearchChanged | app/admin/dashboard/eventos/page.tsx:94 | the search box sets the term the table filters by |
| EventsAdmin.EventsPage.HandleDelete | app/admin/dashboard/eventos/page.tsx:51-64 | declined: nothing; confirmed: the delete, then only that event removed, or the alert and no change |
| ArticlesAdmin.RowOf | app/admin/dashboard/articulos/page.tsx:151-169 | a row shows title, author, likes, a comments column of 0 and the link `/articulos/` + slug |
| ArticlesAdmin.CommentsColumnIgnoresCount | app/admin/dashboard/articulos/page.tsx:153-157 | two articles that differ only in their comment count show the same row |
| ArticlesAdmin.ArticlesPage.constructor | app/admin/dashboard/articulos/page.tsx:23-29 | no articles, loading, an empty search, and the mount fetch sent |
| ArticlesAdmin.ArticlesPage.Fetched | app/admin/dashboard/articulos/page.tsx:31-45 | the fetched rows on success, the old list on an error; loading ends |
| ArticlesAdmin.ArticlesPage.SearchChanged | app/admin/dashboard/articulos/page.tsx:91 | the search box sets the term the table filters by |
| ArticlesAdmin.ArticlesPage.HandleDelete | app/admin/dashboard/articulos/page.tsx:48-63 | declined: nothing; confirmed: the delete, then exactly that id removed, or the alert and no change |
| EventsSection.EventsIn | components/events-section.tsx:66 | kept iff the event's city is the selected one or it has no city, in order, every copy of each |
| EventsSection.CitylessEventsShowEverywhere | components/events-section.tsx:66 | an event without a city appears under both cities |
| EventsSection.CityEventsShowOnce | components/events-section.tsx:66 | an event of one city appears under that city only |
| EventsSection.OtherCityTextIsHidden | components/events-section.tsx:66 | an unaccented `Obregon` hides the event under both cities |
| EventsSection.CardOf | components/events-section.tsx:129-189 | the badge iff featured; the image and the link iff set |
| EventsSection.EventsView.constructor | components/events-section.tsx:10-35 | Hermosillo selected, loading, an empty e-mail, and the fetch sent |
| EventsSection.EventsView.Fetched | components/events-section.tsx:17-31 | the fetched events on success, the old list otherwise; loading ends |
| EventsSection.EventsView.EmailChanged | components/events-section.tsx:228 | the input sets the e-mail |
| EventsSection.EventsView.SelectCity | components/events-section.tsx:88-99 | each button selects its own city |
| EventsSection.EventsView.HandleSubmit | components/events-section.tsx:37-64 | the e-mail is posted; ok: submitted and cleared; not ok or a network error: the matching alert and the e-mail kept; never submitting afterwards |
| UsersAdmin.SearchProfiles | app/admin/dashboard/usuarios/page.tsx:141-144 | kept iff name or e-mail (missing = `""`) includes the term, ignoring case, in order, every copy of each |
| UsersAdmin.EmptySearchKeepsAll | app/admin/dashboard/usuarios/page.tsx:141-144 | an empty search keeps every profile |
| UsersAdmin.RowOf | app/admin/dashboard/usuarios/page.tsx:195-216 | name, e-mail and phone with their placeholders when missing or empty; the role highlighted iff admin |
| UsersAdmin.EmptyFormRoleIsOffered | app/admin/dashboard/usuarios/page.tsx:45-68 | the initial and reset role `reader` is one of the offered roles |
| UsersAdmin.UsersPage.constructor | app/admin/dashboard/usuarios/page.tsx:54-72 | no profiles, loading, an empty search, the dialog closed, not saving, no messages, the empty form, and the mount fetch sent |
| UsersAdmin.UsersPage.Fetched | app/admin/dashboard/usuarios/page.tsx:74-89 | the fetched rows on success, the old list on an error; loading ends |
| UsersAdmin.UsersPage.SearchChanged | app/admin/dashboard/usuarios/page.tsx:167 | the search box sets the term the table filters by |
| UsersAdmin.UsersPage.DialogOpenChanged | app/admin/dashboard/usuarios/page.tsx:240 | the dialog opens or closes as asked |
| UsersAdmin.UsersPage.FormEdited | app/admin/dashboard/usuarios/page.tsx:269-304 | the inputs replace the form with the edited one |
| UsersAdmin.UsersPage.HandleCreateUser | app/admin/dashboard/usuarios/page.tsx:91-139 | the sign-up is sent; its error sets the message (or the fallback) and no update; a user gets the profile update, then success, the form reset and a refetch, or the update's error; no user: nothing more; never saving afterwards |
| ResetPassword.SubmitDisabled | app/admin/reset-password/page.tsx:139 | disabled while loading, and otherwise only by an error over an empty password |
| ResetPassword.ResetPasswordPage.Disabled | app/admin/reset-password/page.tsx:139 | the submit button's state from the page's fields; a definition without an ensures of its own, stated by SubmitDisabled |
| ResetPassword.LoadingDisablesWhatTheOtherGroupingWouldNot | app/admin/reset-password/page.tsx:139 | `&&` binds tighter: the other grouping would leave the button enabled while loading |
| ResetPassword.ResetPasswordPage.constructor | app/admin/reset-password/page.tsx:14-18 | empty passwords, not loading, no error, no success, nothing sent |
| ResetPassword.ResetPasswordPage.PasswordChanged | app/admin/reset-password/page.tsx:113 | the input sets the new password |
| ResetPassword.ResetPasswordPage.ConfirmChanged | app/admin/reset-password/page.tsx:130 | the input sets the confirmation |
| ResetPassword.ResetPasswordPage.SessionChecked | app/admin/reset-password/page.tsx:20-30 | no session sets the invalid-link error |
| ResetPassword.ResetPasswordPage.HandleReset | app/admin/reset-password/page.tsx:32-59 | a mismatch sets its error and sends nothing; a match sends the update, then success or the error (message or fallback); never loading afterwards |

## Left out

- Network, database and auth calls are not modelled. Each is a parameter that stands for the service's answer, and the database's ordering of rows is taken as given.
- Async timing is not modelled: promise interleaving, stale closures between effects, and the `setTimeout` delays. These are the reset of `submitted` in the events section, the dialog close in the users page and the redirect after a password reset.
- Loading flags during an await are not modelled. A method ends where the handler's awaits end, so the intermediate `loading` or `saving` value is not observable.
- Unicode case mapping is not modelled. `toLowerCase` is ASCII lowercasing here, whereas JavaScript maps every cased letter. The two differ on the slug for the few non-ASCII capitals whose lower case begins with an ASCII letter: `İ` (U+0130) lowers to `i` and a combining dot, and the Kelvin sign (U+212A) to `k`. So "İstanbul" slugs to `istanbul` in the source but `stanbul` here, and a title of only the Kelvin sign has the slug `k` in the source but `""` here, where NewArticle.SlugEmpty states it is empty. Other non-ASCII letters are deleted by the slug step in both.
- `parseInt` precision is not modelled. Numbers are unbounded integers; JavaScript loses precision past 2^53 and turns huge inputs into floats.
- The element's volume is not modelled as a float. It is an integer percent instead of the source's fraction `volume / 100`.
- Browser form validation is not modelled: `required`, `type="email"` and `minLength` on the inputs.
- Rendering is not modelled: JSX, CSS classes, icons as components, the Radix slider internals and the carousel library of the announcement banner. Only the values a page derives for display are modelled.
- Icon-map lookups are modelled as map membership. A type named after an object-prototype key (such as `constructor`) would find an inherited entry in JavaScript.
- The `created_at` and `updated_at` fields are not modelled, and neither are fields no page reads.
- The exception path of `getUser` on the new-article page is not modelled. It is treated as "no user".
- The public articles page is modelled by its two functions only, the strip and the search. Its fetch and effects have no state worth stating.
- The users page's delete button is not modelled: it has no handler.
- Player.StreamUrl: it has no contract of its own. Player.StreamUrlInjective states what the stream table promises.
- RouteGuard.Middleware: its own contract states that every redirect goes to `/admin/login`. The other lemmas in that module state the decision's cases.

## Findings

| source | as written | input that shows it | evidently intended | confidence | as-written member | corrected member |
|---|---|---|---|---|---|---|
| app/admin/dashboard/layout.tsx:22-29,103,154 | The header title is the first item whose path is the current path or a prefix of it followed by `/`. Dashboard is listed first and its path is a prefix of every section's. | `/admin/dashboard/articulos` is titled "Dashboard", not "Artículos"; the same holds on every section's pages. | Each section's pages are titled with the section's name; only the dashboard's own page keeps "Dashboard". | not executed | DashboardLayout.ArticlesPageTitle | DashboardLayout.IntendedTitleNamesSection |
