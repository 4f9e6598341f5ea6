# DotSpan core, modelled in Dafny

DotSpan ("life progress") shows a life as a grid of dots, one per week,
month or year lived or still to come. This project models the logic behind
that grid and the app around it:

- exporting the grid and the shareable card to a canvas, with the palette, the geometry, the footer layout, the name-shrink loop, the export filename and the print page;
- the export modal's state machine: zoom, preview renders guarded by a render token, and the download and print guards;
- the translation tables and language resolution;
- the stored profile, with its migration from legacy storage keys and its conversion to and from the editable state;
- the access-control middleware's decision table;
- the contact endpoint, with its validation chain, HTML escaping, security-check handling and mail assembly;
- the theme table;
- application URL joining and SEO metadata;
- plan-id resolution and the cached checkout client;
- the authentication cookie and auth state;
- the settings drawer's life-expectancy range and select fallbacks;
- the header's navigation;
- the prototype dot grid's labels and cells.

One Dafny module per source file. `Wrappers` holds `Option`/`Result`, and `Text` holds the JavaScript string built-ins the code relies on (`trim`, `toLowerCase`, `startsWith`, `indexOf`, `replace`, `String(n)`, `padStart`, `join`, `filter(Boolean)`, `split(c)[0]`). `LifeDotsData` holds the shared types and constants.

The imperative parts take an imperative form:
- the canvas is a class with its size, scale and a list of painting instructions, and the renderers' loops append to it;
- browser storage is a class over a map;
- the export modal, the auth hook's state, the cached checkout client and the menu-sound setting are classes whose methods update their fields;
- the random-byte fill, the slider range and the name-shrink loop are methods.

Everything else is functions and lemmas.

Time, randomness, text measurement, image loading, JSON parsing, the date codec, `encodeURIComponent`, the country table and every network answer are parameters.

An empty grid (`total = 0`) gets a height of minus one gap. The code computes `rows * dotSize + (rows - 1) * gap` with `rows = 0`, so the result is negative rather than zero. The model follows the code (`DotExport.EmptyGridHeight`). The canvas then ignores that height when it is assigned and keeps its default of 150 pixels, unless the scaled gap is under one pixel, in which case the height becomes zero (`DotExport.EmptyGridCanvasHeight`).

## Model

| member | source | states |
|---|---|---|
| DotExport.GetExportPalette | libs/dotExport.ts:70-92 | without a theme, the fixed classic colours and the sixteen-colour rainbow; with a theme, every colour copied from its palette |
| DotExport.ExportRainbowHasSixteen | libs/dotExport.ts:35-52 | the rainbow has sixteen colours without a theme and for every theme of the table |
| DotExport.Ceil | libs/dotExport.ts:150-151 | `Math.ceil`: the least integer not below x |
| DotExport.Rows | libs/dotExport.ts:145 | `Math.ceil(total / perRow)` on whole numbers; its contract is stated by `RowsIsCeiling` |
| DotExport.RowsIsCeiling | libs/dotExport.ts:145 | the row count holds all cells, with no spare row |
| DotExport.RowInRange | libs/dotExport.ts:145-163 | the row of every cell is one of the grid's rows |
| DotExport.GridWidth | libs/dotExport.ts:146 | perRow cells and the gaps between them |
| DotExport.GridHeight | libs/dotExport.ts:147 | one row of cells per grid row and the gaps between them |
| DotExport.EmptyGridHeight | libs/dotExport.ts:145-147 | an empty grid has zero rows and a height of minus one gap |
| DotExport.CanvasDimension | libs/dotExport.ts:150-151 | an assigned canvas size from 0 to 2147483647 is kept; a negative one down to -2147483648 leaves the default; the result never exceeds 2147483647 except as the default |
| DotExport.EmptyGridCanvasHeight | libs/dotExport.ts:145-151 | for an empty grid the canvas keeps its default height of 150 once the scaled gap is at least one pixel, and gets height 0 below that |
| DotExport.CellInsideGrid | libs/dotExport.ts:145-163 | every cell's square lies within the grid's width and height |
| DotExport.CellOriginsDistinct | libs/dotExport.ts:159-163 | with a positive pitch, distinct cells never share a position |
| DotExport.PassedCountIsClampedFilled | libs/dotExport.ts:164 | exactly `filled` cells, clamped to the range zero to total, count as filled |
| DotExport.CellColour | libs/dotExport.ts:164-177 | unfilled cells get the empty colour; filled classic cells the filled colour; filled rainbow cells colour i mod the rainbow's length |
| DotExport.RainbowCycle | libs/dotExport.ts:173-175 | filled rainbow cells a whole number of cycles apart share a colour |
| DotExport.Canvas.constructor | libs/dotExport.ts:149 | a new canvas is 300 by 150 pixels, with unit scale and nothing painted |
| DotExport.Canvas.SetWidth | libs/dotExport.ts:150 | the width becomes the assigned value as the canvas setter takes it, and nothing else changes |
| DotExport.Canvas.SetHeight | libs/dotExport.ts:151 | the height becomes the assigned value as the canvas setter takes it, and nothing else changes |
| DotExport.Canvas.Scale | libs/dotExport.ts:155 | scaling multiplies the scale and changes nothing else |
| DotExport.Canvas.Draw | libs/dotExport.ts:156-177 | painting appends one instruction and changes nothing else |
| DotExport.CellShape | libs/dotExport.ts:166-177 | a cell's disc or rounded square covers exactly its dot square in its colour |
| DotExport.CellOpsIndexed | libs/dotExport.ts:159-178 | the cell loop paints one instruction per cell, the i-th painting cell i |
| DotExport.CellOpPlacement | libs/dotExport.ts:159-163 | cell i sits at column i mod perRow and row i div perRow, one pitch apart |
| DotExport.CellOpColour | libs/dotExport.ts:164-177 | each painted cell has the colour its fill rule gives |
| DotExport.DrawCells | libs/dotExport.ts:159-178 | the loop appends exactly the cell instructions, in index order, and touches nothing but the instruction list |
| DotExport.RenderDotsToCanvas | libs/dotExport.ts:132-181 | the canvas size is the ceiling of width times scale by the ceiling of height times scale, as the canvas setter takes them; with a context it is scaled and holds the background and every cell, without one it is blank |
| DotExport.FitNameSize | libs/dotExport.ts:311-317 | the fitted size lies between 14 and the start size; the name fits or the size is 14 |
| DotExport.FitNameSizeIsLargest | libs/dotExport.ts:311-317 | every size above the fitted one, up to the start size, overflowed: the fitted size is the largest that fits |
| DotExport.FitNameSizeMonotone | libs/dotExport.ts:314 | more room never gives a smaller name |
| DotExport.ShrinkNameFont | libs/dotExport.ts:312-317 | the shrink loop stops at the fitted size and leaves the font set to it |
| CardExport.LayoutCard | libs/dotExport.ts:209-229 | card width is the grid plus both paddings; card height is paddings, header, header gap, grid and footer; the footer height is the text part plus the name part |
| CardExport.FooterHeightZero | libs/dotExport.ts:220-227 | the footer takes no height exactly when there is no footer text and the trimmed name is empty |
| CardExport.FooterEndsAtBottomPadding | libs/dotExport.ts:223-229 | the lowest footer line ends exactly one padding above the card's bottom |
| CardExport.FooterLineCentred | libs/dotExport.ts:298-307 | the flag, its gap and the footer text form one group centred on the card |
| CardExport.FooterNameFits | libs/dotExport.ts:311-321 | the name is drawn upper-cased and centred at 14 to 24 pixels; the name as measured, before upper-casing, fits the inner width unless the size is 14 |
| CardExport.HeaderOps | libs/dotExport.ts:237-259 | the card body, its border, the title and the two right-aligned stats, in painting order |
| CardExport.CardOps | libs/dotExport.ts:237-323 | everything the card paints: header, cells, footer text and footer name, in that order |
| CardExport.DrawHeader | libs/dotExport.ts:237-259 | appends the card body, border, title and right-aligned stats |
| CardExport.DrawFooterText | libs/dotExport.ts:283-309 | appends the optional flag and footer text and advances the cursor only when there is text |
| CardExport.DrawFooterName | libs/dotExport.ts:311-323 | given the trimmed name, the card width and the footer cursor, appends the fitted, upper-cased name centred one gap below the cursor when the name is not empty, and nothing otherwise |
| CardExport.PaintCard | libs/dotExport.ts:237-323 | paints header, cells and footer in that order onto the scaled canvas |
| CardExport.RenderCardToCanvas | libs/dotExport.ts:183-326 | the canvas size is the ceiling of the card's size times the scale, as the canvas setter takes it; with a context it holds exactly the card's instructions, without one it is blank |
| ExportNaming.CollapseRuns | libs/dotExport.ts:370 | only a-z0-9 and single hyphens remain, the result starts with a hyphen exactly when the text starts outside a-z0-9, and the a-z0-9 characters are kept in order |
| ExportNaming.CollapseKeepsSlugChars | libs/dotExport.ts:370 | a text of a-z0-9 characters is kept as it is |
| ExportNaming.CollapseRunIsHyphen | libs/dotExport.ts:370 | a non-empty run of characters outside a-z0-9 becomes exactly one hyphen |
| ExportNaming.CollapseAppend | libs/dotExport.ts:370 | the replace splits at every join with an a-z0-9 character on one side, so each run is replaced by one hyphen in its own place |
| ExportNaming.TwoWordsCollapse | libs/dotExport.ts:370 | two words with any run of other characters between them become the words joined by one hyphen |
| ExportNaming.StripEdgeHyphens | libs/dotExport.ts:370 | dropping edge hyphens keeps every a-z0-9 character |
| ExportNaming.StrippedIsSlug | libs/dotExport.ts:370 | stripping the edge hyphens of a collapsed name leaves a slug |
| ExportNaming.SafeName | libs/dotExport.ts:370 | the slug holds only a-z0-9 and single inner hyphens, keeps every a-z0-9 character of the trimmed, lower-cased name, and is empty exactly when that name has none |
| ExportNaming.SlugOfTwoWords | libs/dotExport.ts:370 | two words, with any runs of other characters before, between and after them, give the words joined by one hyphen once collapsed and stripped |
| ExportNaming.SafeNameOfTwoWords | libs/dotExport.ts:370 | a name that reads, trimmed and lower-cased, as two such words is slugged to the words joined by one hyphen |
| ExportNaming.SafeNameExample | libs/dotExport.ts:370 | "Jane Doe!!" is slugged to "jane-doe" |
| ExportNaming.SlugNonEmpty | libs/dotExport.ts:370-371 | a slug is empty exactly when it has no a-z0-9 character |
| ExportNaming.RandomToken | libs/dotExport.ts:363 | one character per byte, the byte mod 36 picking from a-z0-9 |
| ExportNaming.TokenCharsAreSlugChars | libs/dotExport.ts:354 | the token alphabet has 36 characters, all in a-z0-9 |
| ExportNaming.RandomBytes | libs/dotExport.ts:355-362 | the requested number of bytes: the platform's when it has them, else the floor of each random draw times 256 |
| ExportNaming.TwoDigitsRoundTrip | libs/dotExport.ts:348-349 | a number below 100 is padded to exactly two digits that read back as it |
| ExportNaming.FourDigitYear | libs/dotExport.ts:347 | a four-digit year is written with four digits |
| ExportNaming.BuildLocalDateStamp | libs/dotExport.ts:346-351 | the year, then the month and the day padded to two digits, joined by hyphens; its contract is stated by `DateStampIsIso8601` |
| ExportNaming.DateStampIsIso8601 | libs/dotExport.ts:346-351 | for a four-digit year the stamp is the ISO 8601 calendar date YYYY-MM-DD of the given day |
| ExportNaming.ExtensionName | libs/dotExport.ts:368 | extensions are lower-case letters only |
| ExportNaming.FilenameSuffix | libs/dotExport.ts:370-371 | the suffix is a non-empty slug: the name's slug when not empty, else `export-` and the random token |
| ExportNaming.ExportTokenIsSlug | libs/dotExport.ts:370-371 | the fallback `export-` followed by a six-character token is a slug |
| ExportNaming.BuildExportFilename | libs/dotExport.ts:366-374 | `dotspan-`, the suffix, a hyphen, the date stamp, a dot and the extension; its contract is stated by `FilenameRoundTrip` |
| ExportNaming.FilenameRoundTrip | libs/dotExport.ts:366-374 | a built filename reads back into its suffix, date stamp and extension |
| ExportNaming.NoDotInSuffix | libs/dotExport.ts:370-371 | the suffix never contains a dot |
| ExportNaming.NoDotInStamp | libs/dotExport.ts:346-351 | the stamp has ten characters, no dot, and does not start with a hyphen |
| ExportNaming.ParseAssembled | libs/dotExport.ts:373 | parsing inverts `dotspan-<suffix>-<stamp>.<ext>` when no part holds a dot |
| ExportNaming.PageSize | libs/dotExport.ts:382 | the page size is "letter" exactly for letter paper, and "A4" otherwise |
| ExportNaming.PrintWindow.constructor | libs/dotExport.ts:427 | a new window has no document |
| ExportNaming.WritePrintDocument | libs/dotExport.ts:376-424 | the window's document carries the title, the page size, the 16mm margin and the image |
| ExportNaming.OpenPrintWindow | libs/dotExport.ts:426-430 | without a window nothing happens; with one its document is written |
| ExportModal.Clamp | components/ExportModal.tsx:58-60 | the result lies in the bounds, equals the value inside them, and the nearest bound outside |
| ExportModal.ZoomStep | components/ExportModal.tsx:224-227 | a zoom step always lands in the range 0.5 to 3 |
| ExportModal.WheelDirection | components/ExportModal.tsx:229-235 | scrolling up zooms in; any other wheel movement zooms out |
| ExportModal.DoubleClickZoom | components/ExportModal.tsx:236-238 | double-click gives 1 from 1.9 upwards and 2 below |
| ExportModal.ZoomPercent | components/ExportModal.tsx:222 | `Math.round(z * 100)` with halves rounding up |
| ExportModal.ZoomInOutInverse | components/ExportModal.tsx:224-227 | inside the range, a step in then a step out returns to the same zoom |
| ExportModal.DoubleClickToggles | components/ExportModal.tsx:236-238 | a second double click always changes the zoom, and it stays in range |
| ExportModal.ZoomPercentInRange | components/ExportModal.tsx:222 | any zoom in range reads between 50% and 300% |
| ExportModal.OrFallback | components/ExportModal.tsx:83-85 | an empty theme colour falls back, a non-empty one is kept |
| ExportModal.PanelTitle | components/ExportModal.tsx:218-221 | "Download Preview" exactly in download mode |
| ExportModal.ExtensionOf | components/ExportModal.tsx:182-190 | an image download is never named as a PDF |
| ExportModal.Modal.CanvasOptions | components/ExportModal.tsx:107-131 | the renderer gets the dot size clamped to 2 to 20 and the gap to 0.5 to 12 after scaling, and the modal's colours, font and render scale |
| ExportModal.Modal.constructor | components/ExportModal.tsx:80-93 | a new modal starts in download mode, letter paper, scale 1, zoom 1, theme colours with fallbacks, and nothing in flight |
| ExportModal.Modal.Open | components/ExportModal.tsx:94-105 | opening resets mode, paper, size, colours, font, zoom and error, and keeps preview and busy flags |
| ExportModal.Modal.Close | components/ExportModal.tsx:177-179 | closing cancels the preview run in flight and keeps everything else |
| ExportModal.Modal.SelectDownloadMode | components/ExportModal.tsx:255 | download mode hides the print editor |
| ExportModal.Modal.SelectPrintMode | components/ExportModal.tsx:266-268 | print mode is entered only with access, and the print editor shows exactly then |
| ExportModal.Modal.ZoomIn | components/ExportModal.tsx:224-225 | the zoom steps up, never down, and stays in range |
| ExportModal.Modal.ZoomOut | components/ExportModal.tsx:226-227 | the zoom steps down, never up, and stays in range |
| ExportModal.Modal.WheelZoom | components/ExportModal.tsx:229-235 | scrolling up never lowers the zoom and other scrolling never raises it, in range |
| ExportModal.Modal.ZoomReset | components/ExportModal.tsx:228 | the zoom returns to 1 |
| ExportModal.Modal.ZoomFromSlider | components/ExportModal.tsx:485-491 | the slider's value becomes the zoom |
| ExportModal.Modal.ImageDoubleClick | components/ExportModal.tsx:236-238 | the zoom toggles between 1 and 2 |
| ExportModal.Modal.SetPaperSize | components/ExportModal.tsx:351-362 | the chosen paper is kept, nothing else changes |
| ExportModal.Modal.SetSizeScale | components/ExportModal.tsx:52-56 | the chosen size scale is kept, nothing else changes |
| ExportModal.Modal.StartPreview | components/ExportModal.tsx:154-164 | an open modal takes the next token, makes it the only live run, sets busy and clears the error; a closed one does nothing |
| ExportModal.Modal.CompletePreview | components/ExportModal.tsx:160-175 | a cancelled run changes nothing; only the latest run publishes its image; a failed live run sets the preview error; a live run clears busy |
| ExportModal.Modal.BeginDownload | components/ExportModal.tsx:182-187 | a no-op while exporting; otherwise marks exporting and asks for a render at scale 3 |
| ExportModal.Modal.BeginPrint | components/ExportModal.tsx:201-206 | a no-op without access or while exporting; otherwise marks exporting and asks for a render at scale 4 on the chosen paper |
| ExportModal.Modal.FinishExport | components/ExportModal.tsx:182-214 | exporting ends either way; a failure sets the download or print error; a success saves or prints under the built filename |
| ExportModal.LatestPreviewWins | components/ExportModal.tsx:154-180 | two previews finishing in reverse order leave the later one's image shown |
| ExportModal.DownloadIsNotReentrant | components/ExportModal.tsx:182-185 | a second download while the first renders is ignored |
| I18n.LanguageFromName | libs/lifeDotsData.ts:4 | language identifiers and languages correspond one to one |
| I18n.LanguageNameRoundTrip | libs/lifeDotsData.ts:39-47 | every language reads back from its identifier and is listed as supported |
| I18n.IsSupportedLanguage | libs/i18n.ts:390-392 | supported exactly for en, es, fr, ja, hi and bn |
| I18n.IsSupportedLanguageExactly | libs/i18n.ts:390-392 | a string is supported exactly when it names a language other than "default" |
| I18n.ResolveLanguageId | libs/i18n.ts:394-403 | never "default"; a concrete language is kept; "default" gives the navigator's lower-cased base tag when supported, else "en" |
| I18n.ResolveLanguageExamples | libs/i18n.ts:398-402 | "fr-CA" gives French, "de-DE" English, "JA" Japanese, and a concrete setting wins |
| I18n.ResolveLocale | libs/i18n.ts:405-410 | the navigator tag (or "en") for "default", else the language's identifier |
| I18n.GetTranslations | libs/i18n.ts:412-415 | always one of the six concrete tables, the chosen one for a concrete setting |
| I18n.GetViewTitle | libs/i18n.ts:417-421 | each view mode gets its own title |
| I18n.AllTemplatesShaped | libs/i18n.ts:63-388 | every table's templates are a brace-free lead before their placeholders |
| I18n.ReplaceAfterBraceFreeLead | libs/i18n.ts:435-437 | replacing a placeholder behind a brace-free lead replaces exactly that placeholder |
| I18n.FillProgress | libs/i18n.ts:435-437 | the two replacements fill `{current}` and `{total}` with their numerals |
| I18n.FormatProgress | libs/i18n.ts:423-438 | a template holding neither placeholder is shown unchanged |
| I18n.FormatLifeExpectancy | libs/i18n.ts:440-442 | a label without `{years}` is shown unchanged |
| I18n.FormatProgressFills | libs/i18n.ts:423-438 | in every table the progress text is the mode's lead, the current numeral, a slash and the total numeral |
| I18n.FormatLifeExpectancyFills | libs/i18n.ts:440-442 | in every table the expectancy label is its lead, the numeral and its tail |
| I18n.BuildLanguageOptions | libs/i18n.ts:444-454 | seven options, default then en, es, fr, ja, hi, bn; option k carries the caption of language k in the table |
| I18n.BuildDotStyleOptions | libs/i18n.ts:456-464 | one option per dot style in order, captioned "label: style name" |
| I18n.BuildViewModeOptions | libs/i18n.ts:466-472 | weeks, months, years, each captioned with its view title |
| Profiles.OrEmpty | libs/profile.ts:84-88 | a present non-empty text is kept, anything else becomes empty |
| Profiles.KeyValueStore.constructor | libs/profile.ts:48 | the store starts with the given items |
| Profiles.KeyValueStore.GetItem | libs/profile.ts:49 | reads the value under a key, if any, and changes nothing |
| Profiles.KeyValueStore.SetItem | libs/profile.ts:55 | sets one key and keeps every other |
| Profiles.KeyValueStore.RemoveItem | libs/profile.ts:56 | removes one key and keeps every other |
| Profiles.FirstLegacyFrom | libs/profile.ts:51-59 | the first legacy key in order holding a non-empty value, none when no key does |
| Profiles.LegacyKeysAreNotCurrent | libs/lifeDotsData.ts:36-37 | the legacy keys are distinct and differ from the current key |
| Profiles.MigrationEffect | libs/profile.ts:48-60 | a current value leaves storage unchanged; otherwise the first non-empty legacy value moves to the current key and nothing else changes |
| Profiles.MigrationIdempotent | libs/profile.ts:48-61 | a second load changes nothing and reads the same text |
| Profiles.LoadedTextIsNonEmpty | libs/profile.ts:49-61 | a load reads text exactly when some key holds a non-empty value |
| Profiles.LoadStoredProfile | libs/profile.ts:48-62 | the storage after a load is the migrated storage, and the profile is the parse of the text found, or none |
| Profiles.CountryDefaultExpectancy | libs/profile.ts:71-73 | the country's table value, else 80; 80 without a country |
| Profiles.ToProfileState | libs/profile.ts:64-96 | no profile gives the default state; a birth date comes only from a stored non-empty date text, read by the date parser |
| Profiles.MissingProfileIsDefault | libs/profile.ts:64-96 | no profile, or the empty object, gives the default state field for field |
| Profiles.ExpectancyRules | libs/profile.ts:69-89 | the stored expectancy wins over the country default; the custom flag is the stored one, else whether a stored value differs from the default |
| Profiles.ToStoredProfile | libs/profile.ts:98-112 | every field is copied and the date of birth is written with the date codec, empty when absent |
| Profiles.StoredRoundTrip | libs/profile.ts:64-112 | reading a stored state back gives every field except possibly the date of birth |
| Profiles.StoredRoundTripExact | libs/profile.ts:64-112 | when the date codec reads back what it writes, the round trip is exact |
| Profiles.HasCompletedOnboarding | libs/profile.ts:114-123 | onboarding is complete only for a profile holding all five answers |
| Profiles.OnboardingOfStoredState | libs/profile.ts:114-123 | a stored state counts as onboarded exactly when its name is not blank and the four other answers are given |
| Profiles.BlankNameIsNotOnboarded | libs/profile.ts:114-123 | a blank name, or no profile, never completes onboarding |
| Middleware.QueryGet | middleware.ts:98 | a value is found exactly when the query has the parameter |
| Middleware.IsPrivatePath | middleware.ts:13-15 | a private path is an absolute path of at least six characters |
| Middleware.IsAuthPage | middleware.ts:17-19 | a sign-in page is never a private path |
| Middleware.AuthPagesArePublic | middleware.ts:4-5 | neither "/login" nor "/signup" starts with a private prefix |
| Middleware.RedirectToLogin | middleware.ts:26-31 | a login redirect whose `next` is the requested path followed by its query |
| Middleware.IsAdmin | middleware.ts:89-91 | an administrator exactly when either role is "admin" |
| Middleware.IsSafeNextPathAsWritten | middleware.ts:21-24 | the program's rule: accepted exactly for text starting with one slash and not two |
| Middleware.ParserViewDeletes | middleware.ts:100 | the URL parser's reading of a target has no tab, line feed or carriage return, and leaves a target without them unchanged |
| Middleware.AsWrittenAcceptsOffSite | middleware.ts:21-24 | for every host name, the program's rule accepts a slash, a backslash and the host, and a slash, a tab, a slash and the host; the URL parser reads both as naming that host |
| Middleware.LeadingSlashesOpenAuthority | middleware.ts:100 | a target starting with two slashes, either way round, names a host |
| Middleware.DeletedBreakOpensAuthority | middleware.ts:100 | a tab or line break between two leading slashes does not stop them naming a host |
| Middleware.IsSafeNextPath | middleware.ts:21-24 | the corrected rule: the program's rule, and no backslash or control character |
| Middleware.SafeNextStaysOnSite | middleware.ts:21-24 | a target the corrected rule accepts never names another host |
| Middleware.SafeNextExamples | middleware.ts:21-24 | no value, empty, "//host", absolute URLs and both counterexamples are refused; "/dashboard?tab=1" is accepted |
| Middleware.DecideUnder | middleware.ts:54-104 | under either `next` rule: the cookie is deleted only for a rejected token, and a login redirect only happens for a private path and returns to it |
| Middleware.AsWrittenRedirectsOffSite | middleware.ts:97-101 | with the program's rule, a signed-in user on /login whose `next` is a slash, a backslash and a host is redirected to that host; the corrected decision sends the same request to /dashboard |
| Middleware.DecisionsAgreeOnPlainTargets | middleware.ts:21-24 | the program's decision and the corrected one agree whenever `next` is absent or holds no backslash and no control character |
| Middleware.SignupRedirectsFirst | middleware.ts:57-59 | the sign-up page goes to the login page whatever the cookies say |
| Middleware.PublicPathsPass | middleware.ts:65-67 | paths neither private nor sign-in pages pass untouched |
| Middleware.NoTokenRules | middleware.ts:69-78 | without a token private paths go to login unless they carry `code`; sign-in pages pass |
| Middleware.RejectedTokenRules | middleware.ts:80-86 | a rejected token is deleted; private paths then go to login, others pass |
| Middleware.AdminAreaNeedsAdmin | middleware.ts:88-95 | a signed-in non-admin is sent from the admin area to the dashboard |
| Middleware.SignedInLeavesAuthPages | middleware.ts:97-101 | under either rule, a signed-in user on a sign-in page goes to a `next` the rule accepts, else to the dashboard |
| Middleware.PrivatePathsAreGuarded | middleware.ts:54-104 | in the corrected decision (which differs from the program's only on sign-in pages), a private path passes only for a verified user (an admin in the admin area) or a code exchange without a token |
| Middleware.RedirectsStayOnSite | middleware.ts:54-104 | in the corrected decision, every redirect goes to a path the corrected rule accepts, which the URL parser keeps on this host, and login redirects only happen for private paths |
| Contact.EscapeHtml | app/api/contact/route.ts:17-24 | escaped text holds no `<`, `>`, `"` or `'` |
| Contact.EscapeChar | app/api/contact/route.ts:17-24 | each character escapes to a non-empty inert text |
| Contact.EscapeOneChar | app/api/contact/route.ts:17-24 | the replace chain turns one character into its entity, later replacements leaving earlier entities intact |
| Contact.EscapeHtmlAppend | app/api/contact/route.ts:17-24 | escaping distributes over concatenation |
| Contact.EscapeHtmlIsPerChar | app/api/contact/route.ts:17-24 | the replace chain escapes character by character |
| Contact.EscapeRoundTrip | app/api/contact/route.ts:17-24 | unescaping the escaped text gives the original back |
| Contact.EscapedIsInert | app/api/contact/route.ts:17-24 | escaped text has none of `<`, `>`, `"`, `'`, and every `&` opens one of the five entities |
| Contact.EmailCheckMatchesPattern | app/api/contact/route.ts:12 | the check accepts exactly `^[^\s@]+@[^\s@]+\.[^\s@]+$` |
| Contact.PatternOfScan | app/api/contact/route.ts:12 | every address the check accepts matches the pattern |
| Contact.ScanOfPattern | app/api/contact/route.ts:12 | every address matching the pattern at a given `@` and `.` is accepted |
| Contact.ValidEmailExample | app/api/contact/route.ts:12 | "ana@ex.io" is accepted |
| Contact.InvalidEmailExamples | app/api/contact/route.ts:12 | "ana@ex" and "@ex.io" are rejected |
| Contact.Validate | app/api/contact/route.ts:27-65 | an accepted submission has a valid e-mail, a message of 10 to 4000 characters, a token and a secret, all trimmed (the e-mail lower-cased); rejections are 400 or 503 |
| Contact.ValidationOrder | app/api/contact/route.ts:32-65 | checks run in order (secret, token, e-mail, short, long) and the first failure wins |
| Contact.MissingBodyFirst | app/api/contact/route.ts:27-30 | a missing body is rejected before anything else |
| Contact.RemoteIp | app/api/contact/route.ts:67-68 | the trimmed first comma field of the forwarded header, absent exactly when it is blank |
| Contact.TrimIsInner | app/api/contact/route.ts:68 | trimming keeps only characters of the text |
| Contact.VerifyParams | app/api/contact/route.ts:70-75 | secret, response, then remoteip only when there is one |
| Contact.VerifyRejection | app/api/contact/route.ts:82-98 | passes exactly on an answered success; otherwise 403, with a code whenever the service answered |
| Contact.VerifyCodeDefault | app/api/contact/route.ts:90-97 | without error codes the code is "turnstile_verification_failed" |
| Contact.SafeMessage | app/api/contact/route.ts:102 | in the message's HTML every `<` opens a `<br/>` and no raw line break remains |
| Contact.BreaksOnly | app/api/contact/route.ts:102 | turning line breaks into `<br/>` in text without `<` yields only break tags |
| Contact.OrDefault | app/api/contact/route.ts:100-101 | a present non-empty value, else the fallback |
| Contact.ComposeEmail | app/api/contact/route.ts:100-117 | the mail goes to the support address (or the default) and replies to the sender; the subject is the app name (or "DotSpan") and " contact message"; the text names the sender and the page ("unknown" when empty) before the message; the HTML is the four-paragraph template around the escaped sender, the escaped page and the safe message |
| Contact.MailMarkupIsFixed | app/api/contact/route.ts:100-117 | the sender and page slots are inert and read back as submitted, and every `<` of the HTML lies in the fixed template or opens a `<br/>` of the message |
| Contact.Respond | app/api/contact/route.ts:67-124 | the verification request is always made; mail is sent exactly when verification passes; the reply is ok exactly when mail was sent without error |
| Contact.Post | app/api/contact/route.ts:26-125 | a rejected submission gets its validation reply and makes no calls; the reply is ok exactly when mail was sent |
| Themes.ThemesTableWellFormed | libs/themes.ts:33-224 | eight themes with distinct ids covering every id, each with the sixteen-colour rainbow; the default theme is basic |
| Themes.ThemeIdName | libs/themes.ts:1-9 | the identifier each theme id is written as |
| Themes.ThemeIdNameInjective | libs/themes.ts:1-9 | distinct theme ids are written differently |
| Themes.FindThemeIndex | libs/themes.ts:227 | the first theme whose identifier is the given text, none when no theme has it |
| Themes.ThemeAt | libs/themes.ts:52-221 | every id has its entry in the table |
| Themes.GetTheme | libs/themes.ts:226-228 | always a theme of the table: the one with the requested identifier, else the first entry |
| Themes.GetThemeOfKnownId | libs/themes.ts:226-228 | every theme id finds its own table entry |
| Themes.UnknownThemeFallsBack | libs/themes.ts:226-228 | an identifier outside the table, such as "neon", gives the classic theme |
| Themes.FilterByIds | libs/themes.ts:231 | filtering keeps exactly the themes whose id is listed, in table order |
| Themes.GetBasicThemes | libs/themes.ts:230-232 | classic, aurora, sunset: the table's first three entries in table order |
| Themes.BasicThemesInOrder | libs/themes.ts:224-232 | filtering the table by the basic ids gives its first three entries |
| Themes.BuildThemeOptions | libs/themes.ts:253-259 | one option per theme in order, captioned "prefix: name" when the trimmed prefix is not empty, else the name |
| AppUrl.GetAppUrl | libs/appUrl.ts:3-14 | in the browser a configured non-localhost URL wins, else origin, configured URL, localhost; on the server the configured URL, else localhost; never empty |
| AppUrl.GetRedirectUrl | libs/appUrl.ts:16-21 | the app URL followed by the path's suffix |
| AppUrl.JoinRedirect | libs/appUrl.ts:17-20 | the result starts with the base and continues with the path's suffix |
| AppUrl.RedirectSuffix | libs/appUrl.ts:18-20 | empty exactly for an empty path, otherwise starts with one slash and is the path or "/" and the path |
| AppUrl.RedirectCases | libs/appUrl.ts:18-20 | an empty path gives the base, a slash path the base and the path, any other the base, a slash and the path |
| AppUrl.RedirectEndsWithPath | libs/appUrl.ts:16-21 | the result ends with the path |
| AppUrl.PublicConfiguredUrlWins | libs/appUrl.ts:6-8 | a configured public URL is the app URL in every browser and on the server |
| Seo.DropTrailingSlash | libs/seo.tsx:14 | removes one trailing slash, and only that |
| Seo.BaseUrl | libs/seo.tsx:12-20 | the http app URL without its trailing slash, else https and the domain, else localhost; always starts with "http" |
| Seo.ToAbsoluteUrl | libs/seo.tsx:22-27 | empty gives the base, "http" URLs are kept, others are joined with exactly one slash |
| Seo.AbsoluteUrlIdempotent | libs/seo.tsx:22-27 | making an absolute URL absolute again changes nothing |
| Seo.AbsoluteUrlKeepsPath | libs/seo.tsx:25-26 | a relative path ends the result, behind the base |
| Seo.GetSeoTags | libs/seo.tsx:29-61 | title and description default to the app's; canonical and og URL agree; large card and images exactly with an og image; robots exactly for noIndex; `metadataBase` is the base URL's text rather than a `URL` object |
| Freemius.PlanFor | libs/freemius.ts:33 | the entry configured under the key, none when no entry has it |
| Freemius.FirstWithId | libs/freemius.ts:37-38 | the first entry in configuration order with a truthy id |
| Freemius.ResolvePlanId | libs/freemius.ts:32-40 | the requested plan's truthy id, else the first truthy id, else none; any result is a configured truthy id |
| Freemius.PlanIdFoundIffConfigured | libs/freemius.ts:32-40 | a plan id is found exactly when some configured plan has a truthy id |
| Freemius.BuildCheckoutUser | libs/freemius.ts:42-46 | none without an e-mail; the name only when given |
| Freemius.FreemiusClient.constructor | libs/freemius.ts:22-27 | the client holds the four credentials |
| Freemius.ClientCache.constructor | libs/freemius.ts:12 | the cache starts empty |
| Freemius.ClientCache.GetClient | libs/freemius.ts:14-30 | a cached client is returned as is; otherwise complete credentials create and cache a new client, incomplete ones give the credentials error |
| Freemius.ClientCache.CreateCheckout | libs/freemius.ts:48-60 | the credentials error first, then the plan-id error, else the request with the resolved id, the sandbox flag and the checkout user |
| Freemius.ClientIsCreatedOnce | libs/freemius.ts:12-30 | two calls hand out the same client |
| SupabaseAuth.MaxAge | libs/useSupabaseAuth.ts:35-36 | at least 60 seconds: the time to expiry, or an hour without an expiry |
| SupabaseAuth.TokenCookieParts | libs/useSupabaseAuth.ts:39-46 | no part is empty, and "Secure" is among them exactly over https |
| SupabaseAuth.TokenCookieJoined | libs/useSupabaseAuth.ts:39-47 | the parts joined by "; " read name=token, Path, Max-Age and SameSite, then Secure only over https |
| SupabaseAuth.AuthCookie | libs/useSupabaseAuth.ts:27-48 | without a token the clearing cookie; with one name=token, Path, Max-Age, SameSite and Secure over https, joined by "; " |
| SupabaseAuth.AuthState.constructor | libs/useSupabaseAuth.ts:55-60 | no session, no access, no profile, loading, active |
| SupabaseAuth.AuthState.UserId | libs/useSupabaseAuth.ts:222 | none without a session; otherwise the session user's id |
| SupabaseAuth.AuthState.Email | libs/useSupabaseAuth.ts:223 | none without a session; otherwise the session user's e-mail |
| SupabaseAuth.AuthState.ClearAuthState | libs/useSupabaseAuth.ts:62-68 | signs out locally: no session, access or profile, profile not loaded, token cookie cleared |
| SupabaseAuth.AuthState.RefreshProfile | libs/useSupabaseAuth.ts:70-127 | no client or inactive clears access and profile; an error clears them and marks loaded; a row gives its access flag and, when asked for, its profile; an unmounted hook keeps them |
| SupabaseAuth.AuthState.SessionChanged | libs/useSupabaseAuth.ts:171-192 | records the session and its cookie and stops loading; asks for the profile exactly when the user has an id, else clears the state |
| ProfileDrawer.ExpectancyRange | components/ProfileDrawer.tsx:85-99 | the range stays within 1 to 120, is the full range without a country value, is padded by 20 around it otherwise, widens to take in the draft, and holds any draft from 1 to 120 |
| ProfileDrawer.RangeExample | components/ProfileDrawer.tsx:88-99 | a country value of 72.6 with a draft of 80 gives 53 to 93 |
| ProfileDrawer.Shown | components/ProfileDrawer.tsx:213 | exactly the options with the current id, every one of them, in the order of the options; non-empty exactly when some option has it |
| ProfileDrawer.ShownTheme | components/ProfileDrawer.tsx:387-389 | without access the theme select shows the default theme whatever the draft |
| ProfileDrawer.SelectedOr | components/ProfileDrawer.tsx:219 | the first selected id, else the fallback |
| ProfileDrawer.ClearedSelectFallbacks | components/ProfileDrawer.tsx:219-478 | cleared selects give no country, classic dots, the classic theme, weeks and the soft sound |
| ProfileDrawer.MenuSoundSetting.constructor | components/ProfileDrawer.tsx:101 | the select starts on "soft" |
| ProfileDrawer.MenuSoundSetting.Load | components/ProfileDrawer.tsx:102-104 | mounting shows the saved mode |
| ProfileDrawer.MenuSoundSetting.Change | components/ProfileDrawer.tsx:476-481 | the chosen mode, or "soft", is shown and saved |
| AppHeader.IsItemActive | components/AppHeader.tsx:35-41 | an item is active only on an absolute path |
| AppHeader.AtMostOneActive | components/AppHeader.tsx:35-41 | for any path at most one item is active |
| AppHeader.DashboardPathsActivateDashboard | components/AppHeader.tsx:37 | dashboard paths light up the dashboard item and no other |
| AppHeader.StyleOf | components/AppHeader.tsx:127-136 | active exactly for active items, purple exactly for the plus item, locked exactly for an inactive plus item without access |
| AppHeader.NavLinks | components/AppHeader.tsx:117-136 | the four items in order with their active state and style; signed-in users get the account link in place of login, other items unchanged |
| DotsGrid.Rows | src/components/DotsGrid.tsx:24 | enough rows of perRow for every cell, with none to spare |
| DotsGrid.Labels | src/components/DotsGrid.tsx:31-60 | one slot per index, labelled exactly when chosen, with the 1-based number and the dot's centre offset |
| DotsGrid.ColumnLabels | src/components/DotsGrid.tsx:31-45 | column i is labelled exactly when it is first, last or its number is a multiple of 13 |
| DotsGrid.RowLabels | src/components/DotsGrid.tsx:46-60 | one slot per row; row i is labelled exactly when it is first, last or its number is a multiple of 5 |
| DotsGrid.ColumnLabelsAreDense | src/components/DotsGrid.tsx:32 | the first and last columns are labelled, and every 13 consecutive columns hold a label |
| DotsGrid.LabelOffsetsIncrease | src/components/DotsGrid.tsx:38 | labels further along sit further along |
| DotsGrid.CellColour | src/components/DotsGrid.tsx:76-80 | unfilled cells are grey, filled classic cells black, filled rainbow cells colour i mod the palette's length |
| DotsGrid.Cells | src/components/DotsGrid.tsx:69-83 | exactly total cells, round for classic, each coloured by the fill rule |
| DotsGrid.RainbowCycles | src/components/DotsGrid.tsx:79 | filled rainbow cells one palette length apart share a colour |

## Left out

- Canvas pixels: arcs, rounded-rectangle paths, strokes, `drawImage`, `toDataURL`, downloads by anchor click, and the print page's inline script with its timers. Painting is a list of instructions with their boxes and colours.
- Text measurement, flag-image loading, `crypto`/`Math.random`, the current date and time, `JSON.parse`, the ISO date codec, `encodeURIComponent`, the country expectancy table and `rainbowColors` are parameters. Their behaviour is not modelled.
- `parseProfile` is a parameter from text to an optional profile; its null-on-malformed-input behaviour is that function's `None`.
- The user lookup of the middleware, the profile queries, the security-check request, the mail service and the checkout SDK are not modelled. Their answers are inputs.
- The asynchronous interleaving of preview renders and exports. They are start and complete events applied one at a time.
- `loadSession` in the auth hook, its AbortError paths, `signInWithGoogle` and `signOut`: session loading is modelled through `SessionChanged` only.
- `setAuthTokenCookie` on the server, where there is no document, is not modelled.
- `renderSchemaTags` (a JSON-LD script tag) is not part of this model.
- `applyTheme`, which writes CSS variables to the document.
- Floating point: sizes, zoom and expectancy are exact reals, so IEEE-754 rounding is not modelled.
- String lengths count characters, not UTF-16 units.
- Text.ToLower: case mapping covers ASCII letters only.
- Text.ToUpper: case mapping covers ASCII letters only. CardExport.DrawFooterName draws the footer name through it, so a non-ASCII letter is drawn as given where `toUpperCase` would change it.
- CardExport.FooterNameFits: the fit is shown for the name as measured, before upper-casing, as the code measures it. The drawn upper-cased text can be wider, and the model does not show that it fits.
- Profiles.ToProfileState: the stored dot style, theme, language and view mode are read into enumerations. A stored text outside them, which the code casts without a check, cannot be represented here. `Themes.GetTheme` models the theme lookup's fallback for any text; the missing translation table of an unknown language is not modelled.
- Contact.Validate: `None` stands for a body that does not parse or parses to a falsy value. A truthy body that is not an object, or a field that is present but not a string (on which `.trim()` throws and the route fails with a server error), is not modelled.
- Middleware.Decide: applies the corrected `next` rule on a sign-in page, where the program applies its own; the program's decision is `Middleware.DecideAsWritten`, and the two differ only for a `next` target holding a backslash or a control character (see Findings). `SignedInLeavesAuthPages` covers both rules; `PrivatePathsAreGuarded` and `RedirectsStayOnSite` are about the corrected decision.
- Seo.GetSeoTags: `metadataBase` is the base URL's text; the `URL` object the code builds from it, and the error that constructor throws on a malformed base, are not modelled.
- Middleware.OpensAuthority: only the URL parser's deletion of tabs and line breaks and its reading of `\` as `/` are modelled, for targets that start with a slash; the rest of URL parsing is not.
- DotExport.RenderDotsToCanvas: requires `perRow > 0`, and a non-empty rainbow whenever a rainbow cell is filled. The code divides by `perRow` and indexes the rainbow without checking either. CardExport.RenderCardToCanvas and the layout functions carry the same requirements.
- DotsGrid.Rows: requires `perRow > 0`, for the same reason.
- ExportModal.Modal.ZoomFromSlider: requires a value from 0.5 to 3, the only values the slider produces.
- ExportModal.Modal.SetSizeScale: requires one of the three size buttons' scales.
- ExportModal.Modal.FinishExport: requires six random bytes and a valid calendar date, as the filename builder draws and reads them.
- ExportNaming.DateStampIsIso8601: holds for four-digit years only. Other years are written with as many digits as `String(year)` gives.

## Findings

| source | as written | input that shows it | evidently intended | confidence | as-written member | corrected member |
|---|---|---|---|---|---|---|
| middleware.ts:21-24 | a `next` target is accepted when it starts with `/` and not `//` | `/login?next=/%5Cevil.example`, a `next` of `/\evil.example` (or a slash, a tab and `/evil.example`), which the URL parser resolves to the host `evil.example` | only same-site paths are accepted: no backslash and no tab or line break after the leading slash | not executed | Middleware.AsWrittenRedirectsOffSite | Middleware.RedirectsStayOnSite |
