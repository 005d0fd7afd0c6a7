# Portfolio page scripts in Dafny

This project models the client-side scripts of a personal portfolio site.
Each of its five pages (about, index, contact, projects, resume) loads a
script that repeats the same behaviours with small variations. The model
covers:

- **Theme controller** (every page). It handles the `data-theme` attribute
  on the root element, the `portfolio-theme` storage slot, and the toggle
  button's glyph and aria-label. Its steps are load, `toggleTheme` and the
  button's click. On a click the toggle either runs at once or, where the
  browser offers `document.startViewTransition`, inside the transition's
  update callback.
- **Custom cursor listeners** (every page). `mousemove` records the target
  coordinates and shows a hidden cursor. `mouseout` hides it.
- **Certificate showcase** (about). A card click fills the showcase,
  points the download link at the card's PDF and opens the showcase; the
  close button closes it. The certificate title is cleaned into a
  file-name slug. The card click writes `Kenneth_<slug>_Cert.pdf` into the
  link's `download` attribute. A click on the link never uses that
  attribute: its listener cancels the default action, fetches the link's
  `href`, which is the PDF, and saves the result as
  `Kenneth_<slug>_certificate.jpg`. The model states both: the fetched
  path is the link's `href`, and the saved name ends in `.jpg`.
- **Typewriter** (about). Each timer-driven step appends the next bio
  character to the output, with a line break written as `<br>`.
- **Page-transition link filter** (index). This is the test that decides
  whether a click on a link is taken over or left to the browser.
- **Contact form simulation** (contact). Submit shows the sending look;
  the timer then hides the form and reveals the success message.
- **Project preview** (projects). The container slides in over the list.
  A two-image crossfade swaps the roles of its images on each hover that
  shows a new source.

Each stateful piece is a class whose fields are the DOM, storage and
handler variables the script changes. Each method's postcondition equates
the new state with a specification function of the old one, for example
`Theme.Toggled`, `Cursor.Moved`, `ContactForm.Submitted` or
`ProjectPreview.Hovered`. The lemmas beside those functions state what the
scripts promise. The page-by-page variations are the predicates in
`Pages`:

- about, index and contact write the default theme back to storage;
  projects and resume do not;
- only about and index set an aria-label;
- only index registers its pointer listeners when the page has no cursor
  element.

The theme controller is meant to persist the default "dark" theme whenever
a page loads with an empty slot. The projects and resume scripts instead use
`getItem(...) || 'dark'` and write nothing at load. The model follows the
scripts (`Theme.ProjectsThemeDoesNotPersistDefault`,
`Theme.NonPersistingRoundTripWritesSlot`).

Timers and browser callbacks are explicit steps:

- `ThemeController.RunTransitionUpdate` runs a view transition's update
  callback;
- `ContactFormPage.FireTimer` fires the form's timer;
- `Typewriter.Step` is one run of `typeWriter`.

Pointer coordinates, viewport sizes and the view-transition capability are
parameters.

## Model

| member | source | states |
|---|---|---|
| Theme.LoadResolvesStoredTheme | javapages/javaforabout.js:7-14 | a missing or empty slot loads as "dark"; any other stored string is used as is and left in the slot; persisting pages write "dark" into an empty slot, the others leave it untouched |
| Theme.LoadPersists | javapages/javaforindex.js:4-11 | on about, index and contact the attribute and the slot agree after load |
| Theme.LoadSetsButton | javapages/javaforabout.js:14-22 | after load the glyph is ☀️ exactly when the attribute is "dark", the label is "Switch to Light Mode" exactly then (on pages that set a label), and label-less pages leave the label alone |
| Theme.ToggleFlips | javapages/javaforabout.js:24-37 | a toggle gives "light" exactly from "dark" and "dark" from every other value, writes the same value to storage, and brings glyph and label in line |
| Theme.ToggleTwice | javapages/javaforindex.js:21-34 | two toggles from "dark" or "light" restore the attribute and glyph and leave the slot holding that attribute |
| Theme.ToggleTwiceRestores | javapages/javaforcontact.js:17-28 | when slot and button already agreed with a "dark"/"light" attribute, two toggles are the identity on the whole state |
| Theme.ToggleFromUnknown | javapages/javaforabout.js:31-36 | from an unrecognised attribute one toggle yields "dark" in attribute and slot |
| Theme.ButtonOffersNextTheme | javapages/javaforabout.js:29-35 | whenever the button matches the attribute, glyph and label name the theme the next toggle reaches, never the current one |
| Theme.StepsKeepButtonMatching | javapages/javaforresume.js:11-22 | clicks and update callbacks keep the button matching the attribute |
| Theme.ClickWithoutTransition | javapages/javaforabout.js:40-44 | without `startViewTransition` a click is exactly one toggle and nothing else |
| Theme.ClickWithTransition | javapages/javaforabout.js:53-55 | with `startViewTransition` a click changes nothing visible and schedules one callback, and running it is exactly one toggle |
| Theme.ChoiceCarriesAcrossPages | javapages/javaforprojects.js:7-14 | the theme a toggle writes on any page is the theme any page loads with next |
| Theme.NonPersistingRoundTripWritesSlot | javapages/javaforresume.js:7-16 | on projects and resume a missing or empty slot is left as it was at load, and two toggles then leave "dark" in it |
| Theme.IndexThemeIsAboutTheme | javapages/javaforindex.js:4-41 | index's load, toggle and click equal about's |
| Theme.ContactThemeGlyphOnly | javapages/javaforcontact.js:7-34 | contact persists the default like about, sets the same glyph, and never writes the aria-label |
| Theme.ProjectsThemeDoesNotPersistDefault | javapages/javaforprojects.js:7-16 | projects resolves the same theme and glyph as about but leaves the slot as found (unlike about when it is empty); its toggle is about's without the label |
| Theme.ResumeThemeIsProjectsTheme | javapages/javaforresume.js:7-22 | resume's load, toggle and click equal projects' |
| Theme.ThemeController.Init | javapages/javaforabout.js:6-22 | the load step's new state is `Loaded` of the old one |
| Theme.ThemeController.ToggleTheme | javapages/javaforabout.js:24-37 | `toggleTheme`'s new state is `Toggled` of the old one |
| Theme.ThemeController.Click | javapages/javaforabout.js:40-55 | the click listener's new state is `Clicked` of the old one for the given capability |
| Theme.ThemeController.RunTransitionUpdate | javapages/javaforabout.js:53-55 | the update callback toggles once and retires one pending callback |
| Cursor.MoveRecordsTarget | javapages/javaforabout.js:139-145 | a move records the pointer coordinates as the target whenever listeners are registered |
| Cursor.MoveShowsOnlyHidden | javapages/javaforcontact.js:74-78 | a move makes the cursor "1" only from "0" and leaves every other opacity as it was |
| Cursor.LeaveThenMoveShows | javapages/javaforresume.js:45-57 | mouseout sets opacity "0", and the next move makes it "1" again |
| Cursor.NoCursorNoStyle | javapages/javaforindex.js:125-153 | with no cursor element neither listener writes a style; only index still records the target |
| Cursor.CursorFollower.constructor | javapages/javaforabout.js:132-137 | the target starts at the centre of the viewport |
| Cursor.CursorFollower.MouseMove | javapages/javaforindex.js:125-131 | the mousemove listener's new state is `Moved` of the old one |
| Cursor.CursorFollower.MouseOut | javapages/javaforindex.js:151-153 | the mouseout listener's new state is `Left` of the old one |
| Certificates.ReplaceNonAlnum | javapages/javaforabout.js:190 | same length; each ASCII letter or digit kept in place, every other character replaced by `_` |
| Certificates.ToLower | javapages/javaforabout.js:190 | same length; each character lowercased in place |
| Certificates.CleanTitleShape | javapages/javaforabout.js:190-191 | a cleaned title has the title's length, uses only `[a-z0-9_]`, and holds the lowercased letter or digit or `_` at each position |
| Certificates.CleanTitleFixedPoints | javapages/javaforabout.js:218 | cleaning leaves a string unchanged exactly when it is made of `[a-z0-9_]` |
| Certificates.CleanTitleIdempotent | javapages/javaforabout.js:190 | cleaning a cleaned title changes nothing |
| Certificates.CleanTitleMerges | javapages/javaforabout.js:190 | any two titles of the same length whose letters agree up to case and whose non-alphanumeric characters stand at the same positions get the same slug, so cleaning is not one-to-one |
| Certificates.DownloadNamesWrapSlug | javapages/javaforabout.js:191-228 | both download names start with `Kenneth_`, have the title's length plus the template's, and give back exactly the cleaned title between prefix and suffix |
| Certificates.Showcase.constructor | javapages/javaforabout.js:166-170 | the showcase image, title, description, link `href`, link `download` attribute and class list start as the markup declares them |
| Certificates.Showcase.OpenCard | javapages/javaforabout.js:173-201 | a card click copies the card's image, title, description and PDF path, sets the link's `download` attribute to `Kenneth_<slug>_Cert.pdf` and adds `active` |
| Certificates.Showcase.Close | javapages/javaforabout.js:204-212 | close removes `active` and changes nothing else |
| Certificates.Showcase.ForcedDownload | javapages/javaforabout.js:215-228 | the link listener fetches the link's `href` (the PDF path a card click set) and saves it as `Kenneth_` + the slug of the shown title + `_certificate.jpg`, with a slug of `[a-z0-9_]` only |
| Typewriter.Render | javapages/javaforabout.js:84-95 | the rendered bio holds no raw line break and is three characters longer per line break |
| Typewriter.RenderAppend | javapages/javaforabout.js:86-92 | rendering one more character appends `<br>` for a line break and the character itself otherwise |
| Typewriter.RenderConcat | javapages/javaforabout.js:84-95 | rendering distributes over concatenation |
| Typewriter.RenderPrefix | javapages/javaforabout.js:84-95 | the output after fewer steps is a prefix of the output after more |
| Typewriter.RenderPlain | javapages/javaforabout.js:89-91 | text without line breaks is typed out verbatim |
| Typewriter.Typewriter.constructor | javapages/javaforabout.js:77-84 | the text to type is the about page's bio, and typing starts at index 0 with an empty output |
| Typewriter.Typewriter.Step | javapages/javaforabout.js:85-95 | while characters remain, a step renders one more and reschedules; at the end it changes nothing and stops; the output is always the rendering of the first `charIndex` characters, and `charIndex` never passes the bio's length |
| Navigation.IncludesIffOccurs | javapages/javaforindex.js:164 | the left-to-right scan finds a pattern exactly when it occurs at some position |
| Navigation.IncludesChar | javapages/javaforindex.js:164 | a one-character pattern is found exactly when the character is in the string |
| Navigation.InterceptIff | javapages/javaforindex.js:162-182 | a click is taken over exactly when the `href` exists, contains ".html" and contains no '#', and the navigation goes to exactly that `href` |
| Navigation.PageLinkIntercepted | javapages/javaforindex.js:164-165 | "about.html" is taken over with itself as target |
| Navigation.FragmentLinkFollowed | javapages/javaforindex.js:164 | every link whose `href` holds a '#' keeps the default navigation |
| ContactForm.SubmitStartsSending | javapages/javaforcontact.js:116-125 | submit sets opacity "0.7", cursor "not-allowed", text "Sending...", starts one timer and leaves the form not yet hidden |
| ContactForm.TimerShowsSuccess | javapages/javaforcontact.js:125-131 | the timer adds `hidden` to the form and `active` to the success message |
| ContactForm.SuccessIsFinal | javapages/javaforcontact.js:116-131 | no step removes `hidden` or `active` again |
| ContactForm.SendingIsFinal | javapages/javaforcontact.js:116-131 | no step returns the button to its idle look |
| ContactForm.SecondSubmitNotGuarded | javapages/javaforcontact.js:116-131 | a second submit starts a second timer, whose firing changes nothing beyond the first's |
| ContactForm.ContactFormPage.Submit | javapages/javaforcontact.js:116-125 | the submit listener's new state is `Submitted` of the old one |
| ContactForm.ContactFormPage.FireTimer | javapages/javaforcontact.js:125-131 | the timer's new state is `TimerFired` of the old one |
| ProjectPreview.RepeatHoverIgnored | javapages/javaforprojects.js:96 | hovering the row already shown changes nothing |
| ProjectPreview.EffectiveHoverSwaps | javapages/javaforprojects.js:98-112 | a hover with a new source loads it only into the hidden image, activates that image, deactivates the other, swaps roles and records the source; afterwards exactly one image is active and shows it |
| ProjectPreview.HoverKeepsOneShown | javapages/javaforprojects.js:101-112 | once exactly one image is active with the last source, every hover keeps it so |
| ProjectPreview.ContainerFollowsList | javapages/javaforprojects.js:82-88 | the container is active after entering the list and not after leaving it, and the images are untouched |
| ProjectPreview.Crossfade.constructor | javapages/javaforprojects.js:77-79 | the first image takes the active role and the last source starts as "", so a first hover over a row with an empty `data-img` is ignored |
| ProjectPreview.Crossfade.RowMouseEnter | javapages/javaforprojects.js:92-113 | the row listener keeps the two role variables a permutation of the two images, and its new state is `Hovered` of the old one |
| ProjectPreview.Crossfade.ListMouseEnter | javapages/javaforprojects.js:82-84 | entering the list adds `active` to the container and keeps both images and both role variables, so a row hover can follow |
| ProjectPreview.Crossfade.ListMouseLeave | javapages/javaforprojects.js:86-88 | leaving the list removes `active` from the container and keeps both images and both role variables |

## Left out

- The cursor easing loop (`cursorX += (mouseX - cursorX) * 0.2` on every animation frame) and the transform it paints are left out. They are floating-point arithmetic in a loop that never ends.
- The circular reveal is left out: the `Math.hypot` end radius and the clip-path `animate` call. The view transition is a capability flag, plus an update callback that the browser runs later. The model does not order those callbacks against other events.
- The certificate download's `fetch`, blob, temporary link and `window.open` fallback are network and browser I/O. Only the path it fetches and the file name it saves under are modelled.
- Scroll reveals (IntersectionObserver, the projects page's timed `is-visible`) and skill-bar widths are left out. Each only adds a class when the host says so.
- Video play and pause on hover (index) are left out.
- The droplet element and its scaling are left out. So is the 600 ms delay before `window.location.href` is assigned: the `Intercept` outcome carries the target instead. The selector that picks which elements get the click listener is not modelled.
- `scrollIntoView` and every `setTimeout` delay are left out. A timer firing is an explicit step, not wall-clock time.
- The about page registers the showcase close listener twice. It is modelled once, because removing `active` twice is the same as removing it once.
- A missing element or attribute that would make a script throw is not modelled. The elements are the theme button; the showcase, its image, title, description and download link; the contact form's submit button, `.btn-text` and `#success-message`; and `#projects-list`, `#preview-container` and `#preview-image-1`/`-2`. The attribute is a card's `data-title`. Without `#success-message` the timer would throw after hiding the form, leaving no success message; `TimerFired` assumes the element exists.
- Other missing data attributes are not modelled either. They do not throw: a card without `data-img`, `data-pdf` or `data-desc`, or a project row without `data-img`, leaves the page storing "null" or an empty text. Image sources, paths and texts are strings.
- ReplaceNonAlnum: works on Unicode scalar values. JavaScript strings are UTF-16, so a character outside the Basic Multilingual Plane becomes two `_` in the page and one in the model.
- ToLower: maps only ASCII letters. JavaScript's `toLowerCase` also maps non-ASCII letters, but none are left after `ReplaceNonAlnum`.
- The typewriter appends through `innerHTML +=`, which re-serialises the span's content and re-parses it. The model's `output` is the markup the steps append: the typed text with `<br>` for each line break. It is not the string `innerHTML` reads back. Once the bio's `&` ("Web Developer & Designer") has been typed, that string holds `&amp;` where `output` holds `&`; the displayed text is the same.
