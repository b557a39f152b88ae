# FiddleBops site core, modelled in Dafny

This project models the logic of the FiddleBops web site, an Astro and React
site that embeds the browser music game FiddleBops. The model covers these parts:

- **Configuration checks.**
  - `src/config/types.ts`: the value predicates.
  - `src/config/site.ts`: the site record and its converters.
  - `src/config/game.ts`: the game record.
  - `src/config/theme.ts`: colours, lengths and the ordered theme validation.

  Each check is a list of `(condition, message)` pairs evaluated in source order. The first failing pair is the error that would be thrown (module `Checks`). For every record the model proves three things:
  - validation passes exactly when a declarative validity predicate holds;
  - the first bad field gives its own message;
  - the shipped record passes.
- **Translations.**
  - `src/i18n/core/utils.ts`: language from the URL, `t` with fallback and `{name}` substitution, localised paths, and the development checks of placeholders and keys.
  - `src/i18n/utils.ts`: the older variant.
  - `src/i18n/dev-utils.ts`: the completeness report and the stricter key check.
- **The game embed.** `GameController` in `src/components/sections/game/GameController.ts`.
  - Module `GameLoader` gives its state as a value, one function per handler, and traces of events.
  - Module `GameEmbed` holds a class whose methods update the fields in place. Each method is proved to act as the matching function.
  - Timers are a set of armed handles that fire only as explicit events.
- **Structured data and images.**
  - The schema.org builders of `src/utils/schema.ts`.
  - The option check and the `srcset`/`sizes` builders of `src/utils/image.ts`.
- **Resource hints.** `src/utils/preload.ts`. `document.head` is a class holding the links appended so far. `preloadCriticalResources` and `dnsPrefetch` are loops proved against list functions.
- **Accessibility helpers.** `src/utils/a11y.ts`.
  - An element is a class over its attribute map, display and text.
  - Each closure the `manage*` factories return is a method proved to act as a function on the element's value.
- **Debounce.** `debounce` in `src/utils/performance.ts`. A state of the closure and the platform's armed timers is proved to keep at most one invocation pending.
- **The language selector.** `src/components/ui/LanguageSelectorClient.tsx`: the open/active-index state machine for the keyboard and the pointer.
- **The orientation notice.** `src/components/ui/orientation/OrientationNoticeClient.tsx`: visibility and the remembered preference in local storage.

Several things outside the code become parameters of the model:
- URL parsing (`new URL`) is a parameter `parses: string -> bool`.
- Relative URL resolution is a parameter `resolve`.
- The `parseFloat` rating check is a parameter `ratingValid`.
- The build flag `import.meta.env.PROD` is a parameter `prod` (`DEV` is `!prod`).

Thrown errors are `Err`/`Fail` values carrying the exact message the code throws.

The game controller as written (src/components/sections/game/GameController.ts):
- It has no status field and only ever increments `retryCount`.
- It waits for no delay between automatic retries and never reads the configured `retryInterval`.
- A timeout shows the error panel at once, without counting a failure.
- `startGame` and the retry button do not cancel an armed timeout, so two timeouts can be armed at once (`GameLoader.DoubleStartArmsTwoTimers`).
- `handleError` cancels the stored timeout but leaves its handle in `timeoutId`.

## Model

| member | source | states |
|---|---|---|
| ConfigTypes.IsNonEmptyString | src/config/types.ts:7-8 | `isNonEmptyString`: accepts exactly the strings of positive length |
| ConfigTypes.IsValidUrl | src/config/types.ts:9-20 | `isValidUrl`: accepts a string with a leading "/" as it is, and any other string exactly when the URL parser accepts it |
| ConfigTypes.IsValidEmail | src/config/types.ts:21-22 | `isValidEmail`: accepts a non-empty local part free of whitespace and "@", one "@", then a domain free of whitespace and "@" with a "." that has text on both sides |
| ConfigTypes.UrlVerdict | src/config/types.ts:9-20 | every string starting with "/" is a valid URL whatever follows; any other string is valid exactly when the URL parser accepts it |
| ConfigTypes.EmailSplit | src/config/types.ts:21-22 | every accepted address splits as local@domain.tld with all three parts non-empty and free of whitespace and "@" |
| ConfigTypes.EmailJoin | src/config/types.ts:21-22 | every string of the form local@domain.tld with such parts is accepted |
| ConfigTypes.EmailIff | src/config/types.ts:21-22 | the email predicate accepts exactly the strings of that shape (both directions) |
| ConfigSite.ToNonEmptyString | src/config/site.ts:10-15 | returns its input unchanged exactly when it is non-empty, otherwise fails with "Invalid string: " and the input |
| ConfigSite.ToValidUrl | src/config/site.ts:17-22 | returns its input unchanged exactly when it is a valid URL, otherwise fails with "Invalid URL: " and the input |
| ConfigSite.ToEmailAddress | src/config/site.ts:24-29 | returns its input unchanged exactly when it is a valid email, otherwise fails with "Invalid email: " and the input |
| ConfigSite.ConvertersIdempotent | src/config/site.ts:10-29 | applying a converter to its own result gives the same result |
| ConfigSite.FeaturePairs | src/config/site.ts:91-98 | one (title, description) pair per feature, in order |
| ConfigSite.FaqPairs | src/config/site.ts:104-111 | one (question, answer) pair per FAQ, in order |
| ConfigSite.BasicChecksPass | src/config/site.ts:34-57 | the basic checks pass iff name, title and description are non-empty, url and ogImage are valid URLs, every keyword is non-empty and timeout is positive |
| ConfigSite.CreatorChecksPass | src/config/site.ts:60-74 | the creator checks pass iff name, description and location are non-empty and the email is valid |
| ConfigSite.LinkChecksPass | src/config/site.ts:77-85 | the link checks pass iff the twitter, github and discord URLs are non-empty and valid |
| ConfigSite.HeadChecksPass | src/config/site.ts:34-85 | all checks before the features pass iff basics, creator and links are valid |
| ConfigSite.FeatureChecksPass | src/config/site.ts:91-98 | the feature checks pass iff every feature has a non-empty title and description |
| ConfigSite.FaqChecksPass | src/config/site.ts:104-111 | the FAQ checks pass iff every FAQ has a non-empty question and answer |
| ConfigSite.EntryChecksPass | src/config/site.ts:88-111 | both entry checks pass iff every feature and every FAQ is complete |
| ConfigSite.FeatureChecksFirstBad | src/config/site.ts:91-98 | the first incomplete feature i gives "Feature i title/description is required", with title checked before description |
| ConfigSite.FaqChecksFirstBad | src/config/site.ts:104-111 | the first incomplete FAQ i gives "FAQ i question/answer is required", with question checked before answer |
| ConfigSite.ValidateSiteConfig | src/config/site.ts:32-112 | passes iff the record is valid; an empty name is reported first; any failure is the message of the first failing check in source order, every earlier check having held |
| ConfigSite.SiteChecks | src/config/site.ts:32-112 | `validateSiteConfig`'s checks as an ordered list of (condition, message): name, url, title, description, keywords, timeout, ogImage, creator fields, links, then each feature and each FAQ |
| ConfigSite.SiteChecksPass | src/config/site.ts:32-112 | the whole ordered check list passes iff the site record is valid |
| ConfigSite.EmptyNameFirst | src/config/site.ts:34-36 | an empty site name is the first failure whatever else is wrong |
| ConfigSite.FeatureFailureNamesIndex | src/config/site.ts:91-98 | with valid head fields, validation fails with the message naming the index of the first incomplete feature |
| ConfigSite.FaqFailureNamesIndex | src/config/site.ts:104-111 | with valid head fields and features, validation fails with the message naming the index of the first incomplete FAQ |
| ConfigSite.TimeoutMustBePositive | src/config/site.ts:52-54 | with valid earlier fields, a timeout of 0 or less fails with "Timeout must be a positive number" |
| ConfigSite.RelativeUrlField | src/config/types.ts:11 | a non-empty path starting with "/" passes a URL field check regardless of the parser |
| ConfigSite.ContactEmailValid | src/config/site.ts:138 | the shipped contact address is a valid email |
| ConfigSite.OgImageValid | src/config/site.ts:132 | the relative shipped ogImage "/images/og-image.jpg" passes through the "/" shortcut |
| ConfigSite.ShippedBasicsValid | src/config/site.ts:115-132 | the shipped basic fields are valid |
| ConfigSite.ShippedCreatorValid | src/config/site.ts:133-140 | the shipped creator is valid |
| ConfigSite.ShippedLinksValid | src/config/site.ts:141-145 | the shipped links are valid |
| ConfigSite.ShippedHeadValid | src/config/site.ts:115-145 | the shipped head fields are valid |
| ConfigSite.ShippedFeaturesValid | src/config/site.ts:147-166 | every shipped feature is complete |
| ConfigSite.ShippedFaqsValid | src/config/site.ts:167-190 | every shipped FAQ is complete |
| ConfigSite.ShippedSiteValid | src/config/site.ts:115-192 | the shipped site record satisfies the validity predicate |
| ConfigSite.ValidSitePasses | src/config/site.ts:32-112 | every valid record passes validation |
| ConfigSite.ShippedSiteConfigPasses | src/config/site.ts:195 | the shipped site record passes validation when its absolute URLs parse |
| ConfigSite.EnvSiteUrl | src/config/site.ts:198-204 | the configured SITE when it is set and non-empty, otherwise "http://localhost:3000", in each case through the URL converter |
| ConfigGame.RatioJoin | src/config/game.ts:58-60 | digits, ":" and digits always form an accepted aspect ratio |
| ConfigGame.AspectRatioIff | src/config/game.ts:58-60 | the ratio pattern accepts exactly the strings w:h with w and h non-empty digit runs |
| ConfigGame.RatioRefused | src/config/game.ts:58-60 | a string whose leading digit run is not followed by ":" and a digit run to the end is refused |
| ConfigGame.RatioSlashRefused | src/config/game.ts:58-60 | "16/9" is refused |
| ConfigGame.RatioNoWidthRefused | src/config/game.ts:58-60 | ":9" is refused |
| ConfigGame.RatioNoHeightRefused | src/config/game.ts:58-60 | "16:" is refused |
| ConfigGame.RatioTrailingSpaceRefused | src/config/game.ts:58-60 | "16:9 " is refused |
| ConfigGame.AspectRatioForms | src/config/game.ts:58-60 | "16:9" and "4:3" are accepted; "16/9", ":9", "16:", "16:9 " and "" are refused |
| ConfigGame.IdentityChecksPass | src/config/game.ts:43-74 | the identity, orientation, ratio and control checks pass iff id, name and description are non-empty, url and previewImage are valid, the orientation is known, the ratio matches and every control is non-empty |
| ConfigGame.LoadChecksPass | src/config/game.ts:77-91 | the loading checks pass iff the message is non-empty and timeout and maxRetries are positive |
| ConfigGame.ErrorChecksPass | src/config/game.ts:94-117 | the error checks pass iff the timeout, notFound and generic messages are non-empty and retryInterval is positive |
| ConfigGame.SeoChecksPass | src/config/game.ts:120-131 | the SEO checks pass iff title and description are non-empty and every keyword is non-empty |
| ConfigGame.GameChecks | src/config/game.ts:41-132 | `validateGameConfig`'s checks as an ordered list of (condition, message): identity, orientation, ratio and controls, then loading, error and SEO |
| ConfigGame.GameChecksPass | src/config/game.ts:41-132 | the whole ordered check list passes iff the game record is valid |
| ConfigGame.ValidateGameConfig | src/config/game.ts:41-132 | passes iff the record is valid; an empty id is reported first; any failure is the message of the first failing check in source order, every earlier check having held |
| ConfigGame.EmptyIdFirst | src/config/game.ts:43-44 | an empty id is the first failure whatever else is wrong |
| ConfigGame.OrientationMustBeKnown | src/config/game.ts:55-57 | with valid texts and URLs, an orientation other than landscape or portrait fails with "Invalid game orientation" |
| ConfigGame.AspectRatioMustMatch | src/config/game.ts:58-60 | with a known orientation, a ratio not of the form w:h fails with "Invalid aspect ratio format" |
| ConfigGame.ControlsMustBeNonEmpty | src/config/game.ts:63-68 | an empty mobile control fails with the mobile-controls message |
| ConfigGame.LoadingNumbersMustBePositive | src/config/game.ts:80-91 | after a valid loading message, a non-positive timeout or maxRetries fails with its own message, timeout first |
| ConfigGame.RetryIntervalMustBePositive | src/config/game.ts:112-117 | with valid earlier fields, a non-positive retryInterval fails with "Retry interval must be a positive number" |
| ConfigGame.ShippedRatioValid | src/config/game.ts:142 | the shipped ratio "16:9" is accepted |
| ConfigGame.ShippedIdentityValid | src/config/game.ts:135-154 | the shipped identity, orientation, ratio and controls are valid |
| ConfigGame.ShippedGameValid | src/config/game.ts:135-179 | the shipped game record satisfies the validity predicate |
| ConfigGame.ShippedGameConfigPasses | src/config/game.ts:155-182 | the shipped record passes validation and has timeout 30000, maxRetries 3 and retryInterval 1000 |
| ConfigTheme.IsValidHexColor | src/config/theme.ts:95-97 | `isValidHexColor`: accepts "#" followed by exactly 3 or 6 hex digits of either case |
| ConfigTheme.AlphaChars | src/config/theme.ts:100 | an accepted alpha is a non-empty run of digits and dots |
| ConfigTheme.Blanks | src/config/theme.ts:100 | splits a string into its leading whitespace run and the rest, which starts with no whitespace |
| ConfigTheme.ParseChannel | src/config/theme.ts:100 | a parsed channel is valid (blanks, digits, blanks) and printing it back before the rest gives the input |
| ConfigTheme.ParseFormatChannel | src/config/theme.ts:100 | a printed valid channel followed by a non-digit, non-blank rest parses back to that channel and rest |
| ConfigTheme.ParseAlphaPart | src/config/theme.ts:100 | a parsed alpha part (blanks, 0, 1 or [0].digits, blanks, ")") is valid and prints back to the input |
| ConfigTheme.ParseFormatAlphaPart | src/config/theme.ts:100 | a printed valid alpha part parses back to itself |
| ConfigTheme.ChannelComma | src/config/theme.ts:100 | a channel followed by "," parses into a valid channel whose printed form, the comma and the rest give the input |
| ConfigTheme.ChannelCommaExact | src/config/theme.ts:100 | a printed valid channel, a comma and any rest parse back to that channel and rest |
| ConfigTheme.ParseRgbaBody | src/config/theme.ts:99-103 | the text after "rgba(" parses into three valid channels and a valid alpha whose printed form is the input |
| ConfigTheme.ParseRgba | src/config/theme.ts:99-103 | a parsed colour is valid and prints back to the input |
| ConfigTheme.IsValidRGBA | src/config/theme.ts:99-103 | `isValidRGBA`: accepts exactly the strings the rgba parser reads, "rgba(" with three digit channels and an alpha of 0, 1 or an optional 0 and a fraction, spaces allowed around each |
| ConfigTheme.IsValidThemeColor | src/config/theme.ts:105-107 | `isValidThemeColor`: a hex colour or an rgba colour |
| ConfigTheme.RgbaRoundTrip | src/config/theme.ts:99-103 | every valid rgba colour parses back from its printed form |
| ConfigTheme.RgbaIff | src/config/theme.ts:99-103 | the rgba predicate accepts exactly the printed forms of valid colours |
| ConfigTheme.HasUnitIff | src/config/theme.ts:109-111 | a digit run followed by a suffix that does not start with a digit has a unit iff the suffix is one of the allowed units |
| ConfigTheme.IsValidSpacing | src/config/theme.ts:109-111 | `isValidSpacing`: accepts a digit run followed by exactly "px", "rem" or "em" |
| ConfigTheme.ValueChecks | src/config/theme.ts:183-187 | one check per value, in order, with the prefix message and the value |
| ConfigTheme.PrimaryChecksPass | src/config/theme.ts:117-125 | the three primary checks pass iff the base is a theme colour and lighter and darker are theme colours when present |
| ConfigTheme.BackgroundChecksPass | src/config/theme.ts:128-141 | the secondary check and the three background checks pass iff the secondary colour and the three background colours are theme colours |
| ConfigTheme.TextChecksPass | src/config/theme.ts:144-152 | the text checks pass iff its three colours are theme colours |
| ConfigTheme.AccentChecksPass | src/config/theme.ts:155-169 | the accent checks pass iff its five colours are theme colours |
| ConfigTheme.CardChecksPass | src/config/theme.ts:172-177 | the card checks pass iff both card colours are rgba colours |
| ConfigTheme.GroupChecksPass | src/config/theme.ts:115-177 | each colour group's checks pass iff that group is valid |
| ConfigTheme.ColorChecksPass | src/config/theme.ts:115-178 | the colour checks pass iff all colours are valid |
| ConfigTheme.ValueChecksPass | src/config/theme.ts:183-187 | a per-value check list passes iff every value satisfies the test |
| ConfigTheme.SpacingChecksPass | src/config/theme.ts:190-198 | the spacing checks pass iff the three spacings are digits followed by px, rem or em |
| ConfigTheme.ThemeChecks | src/config/theme.ts:113-206 | `validateThemeConfig`'s checks as an ordered list of (condition, message): the colours, then the breakpoints, spacings and durations |
| ConfigTheme.ThemeChecksPass | src/config/theme.ts:113-206 | the whole ordered check list passes iff colours, breakpoints, spacings and durations are valid |
| ConfigTheme.BreakpointFailsFirst | src/config/theme.ts:183-187 | with valid colours, a bad "sm" breakpoint fails with "Invalid breakpoint value: " and its value |
| ConfigTheme.PrimaryFailsFirst | src/config/theme.ts:117-119 | a bad primary colour is the first failure whatever else is wrong |
| ConfigTheme.ValidateThemeConfig | src/config/theme.ts:113-206 | passes iff the theme is valid; a bad primary colour gives "Invalid primary color"; with valid colours a bad first breakpoint names its value; any failure is the message of the first failing check in source order |
| ConfigTheme.SpacedRgbaValid | src/config/theme.ts:99-103 | "rgba(r, g, b, a)" with digit channels, one space after each comma and an accepted alpha is valid |
| ConfigTheme.CardColorValid | src/config/theme.ts:237-238 | "rgba(26, 26, 26, a)" is valid for every accepted alpha |
| ConfigTheme.CardBaseValid | src/config/theme.ts:237 | the shipped card colour "rgba(26, 26, 26, 0.8)" is valid |
| ConfigTheme.CardHoverValid | src/config/theme.ts:238 | the shipped hover colour "rgba(26, 26, 26, 0.9)" is valid |
| ConfigTheme.ShippedBreakpointsValid | src/config/theme.ts:241-247 | every shipped breakpoint is a pixel length |
| ConfigTheme.ShippedSpacingValid | src/config/theme.ts:248-256 | the shipped spacings are valid |
| ConfigTheme.ShippedDurationsValid | src/config/theme.ts:258-262 | every shipped duration is a millisecond length |
| ConfigTheme.ShippedPrimaryValid | src/config/theme.ts:211-218 | the shipped primary, lighter, darker and secondary colours are theme colours |
| ConfigTheme.ShippedBackgroundValid | src/config/theme.ts:219-228 | the shipped background and text colours are theme colours |
| ConfigTheme.ShippedAccentValid | src/config/theme.ts:229-235 | the shipped accent colours are theme colours |
| ConfigTheme.ShippedColorsValid | src/config/theme.ts:210-240 | the shipped colours are valid |
| ConfigTheme.ShippedThemePasses | src/config/theme.ts:209-292 | the shipped theme passes validation |
| ConfigTheme.HexNotRgba | src/config/theme.ts:95-103 | no hex colour is an rgba colour |
| ConfigTheme.CardMustBeRgba | src/config/theme.ts:171-174 | a hex card colour is a valid theme colour, yet with all other colours valid it fails with "Invalid card color" |
| ConfigTheme.FractionalSpacingRejected | src/config/theme.ts:109-111 | "1.5rem" is not a valid spacing |
| ConfigTheme.AlphaForms | src/config/theme.ts:100 | "0", "1", ".5" and "0.8" are accepted alphas; "1.0", "00.5" and "" are refused |
| I18nCore.GetLangFromUrlAsWritten | src/i18n/core/utils.ts:13-17 | `getLangFromUrl` as written: "en", a language of the table or an inherited object name, and anything other than "en" is the first path segment |
| I18nCore.GetLangFromUrlAsWrittenEscapes | src/i18n/core/utils.ts:13-17 | as written, the path "/constructor" yields "constructor", which is not a language of the table |
| I18nCore.ConstructorIsPrototypeName | src/i18n/core/utils.ts:15 | "constructor" is one of the names the `in` operator finds on every plain object |
| I18nCore.GetLangFromUrl | src/i18n/core/utils.ts:13-17 | the result is always a supported language: the first path segment when it is a non-empty language, otherwise "en" |
| I18nCore.IsValidLanguage | src/i18n/core/utils.ts:58-60 | `isValidLanguage`: accepts exactly the table's own languages |
| I18nCore.ValidLanguageIffUrlLanguage | src/i18n/core/utils.ts:58-60 | a non-empty name without "/" passes isValidLanguage exactly when the path "/" + name is read as that language |
| I18nCore.GetBrowserLanguage | src/i18n/core/utils.ts:52-56 | the result is always a supported language: "en" without a navigator, the primary subtag when it is a language, otherwise "en" |
| I18nCore.TranslatePath | src/i18n/core/utils.ts:43-50 | `translatePath`: the path always ends the result, and the result is the path itself exactly when the target (the hook's language by default) is "en" |
| I18nCore.TranslatePathRoundTrip | src/i18n/core/utils.ts:43-50 | the default language leaves the path unchanged; for any other target, reading the language off the localised path gives the target back |
| I18nCore.BraceMatch | src/i18n/core/utils.ts:67 | a match at the start is "{", a non-empty word run and "}" |
| I18nCore.Placeholders | src/i18n/core/utils.ts:67 | every reported name is a non-empty run of word characters |
| I18nCore.PlaceholdersSound | src/i18n/core/utils.ts:67 | every reported name occurs in braces in the text |
| I18nCore.PlaceholdersComplete | src/i18n/core/utils.ts:67 | every braced word run in the text is reported |
| I18nCore.PlaceholderIff | src/i18n/core/utils.ts:67 | a name is reported iff it is a non-empty word run occurring in braces (both directions) |
| I18nCore.Names | src/i18n/core/utils.ts:68 | the parameter names, in entry order |
| I18nCore.Without | src/i18n/core/utils.ts:71-72 | exactly the elements of the first list that are not in the second |
| I18nCore.CheckParams | src/i18n/core/utils.ts:63-74 | missing holds exactly the placeholders not provided; unused holds exactly the provided names not in the text; so missing is disjoint from the provided names and unused is within them |
| I18nCore.CheckTranslationParams | src/i18n/core/utils.ts:76-104 | silent in production; otherwise passes iff every placeholder is provided or manual and every provided name is used, and reports missing parameters before unused ones |
| I18nCore.MissingIff | src/i18n/core/utils.ts:85-89 | some parameter is reported missing iff a placeholder is neither provided nor manual |
| I18nCore.UnusedIff | src/i18n/core/utils.ts:97 | some parameter is reported unused iff a provided name is not a placeholder |
| I18nCore.ActualMissing | src/i18n/core/utils.ts:85-87 | exactly the placeholders that are neither provided nor listed as manual |
| I18nCore.ExactParamsPass | src/i18n/core/utils.ts:76-104 | providing exactly the placeholder names never fails the parameter check |
| I18nCore.Get | src/i18n/core/utils.ts:113 | a value is read iff the language has the key or the key is a name every object inherits; an own entry is read as it is, an inherited name reads an object |
| I18nCore.CheckTranslationKey | src/i18n/core/utils.ts:106-121 | silent in production; otherwise an absent or falsy value fails with the missing-key message, and the check passes iff the value is a truthy string or number |
| I18nCore.InheritedKeyIsNotMissing | src/i18n/core/utils.ts:113-120 | in development a key the language lacks but every object inherits, such as "constructor", fails with the not-a-string-or-number message, not the missing-key one |
| I18nCore.GetAsEntries | src/i18n/core/utils.ts:28 | over the translation table the key check reads an own entry as its text, an inherited name as an object, and any other key as absent |
| I18nCore.KeyCheckOfUi | src/i18n/core/utils.ts:106-121 | over the translation table the development key check passes exactly for a present non-empty entry, fails with the not-a-string-or-number message for an inherited name the language lacks, and with the missing-key message otherwise |
| I18nCore.IsValidTranslationText | src/i18n/core/utils.ts:123-133 | true iff the text is not blank and no placeholder name repeats |
| I18nCore.PlainTextIsValid | src/i18n/core/utils.ts:125-129 | a text that is not blank and has no placeholders is valid |
| I18nCore.Lookup | src/i18n/core/utils.ts:25 | the entry of the requested language when it has the key, otherwise the default language's entry |
| I18nCore.Interpolate | src/i18n/core/utils.ts:32-37 | the `reduce` over the parameter entries: each entry in turn replaces every "{k}" with its value |
| I18nCore.InterpolateAbsent | src/i18n/core/utils.ts:32-37 | parameters whose "{k}" does not occur leave the text unchanged |
| I18nCore.NoPlaceholdersUnchanged | src/i18n/core/utils.ts:32-37 | a text without placeholders comes out unchanged for any word-named parameters |
| I18nCore.InterpolateAppend | src/i18n/core/utils.ts:32-37 | substitution is a left fold in entry order: substituting xs + ys is substituting xs and then ys |
| I18nCore.AsEntries | src/i18n/core/utils.ts:28 | the table the key check reads has the same languages and keys as the translation table |
| I18nCore.Translate | src/i18n/core/utils.ts:19-41 | in production the looked-up text, with parameters substituted when given; in development a missing or empty entry fails first with the missing-key message, and an inherited name the language lacks with the not-a-string-or-number message, and for a present entry a failing parameter check gives its error while a passing one gives success; any success is the looked-up, substituted text |
| I18nCore.DevelopmentHasNoFallback | src/i18n/core/utils.ts:25-28 | a key missing from the requested language fails in development and falls back to the default language in production |
| I18nLegacy.GetLangFromUrl | src/i18n/utils.ts:3-7 | always a supported language: the first path segment when it is a language, otherwise "en" |
| I18nLegacy.AgreesWithCore | src/i18n/utils.ts:3-7 | when neither "" nor "undefined" is a language, the older lookup agrees with the core one |
| I18nLegacy.EmptySegmentDiffers | src/i18n/utils.ts:5 | when "" is a language, the older lookup returns it for "/" while the core one returns "en" |
| I18nLegacy.Translate | src/i18n/utils.ts:12-25 | the loop yields the looked-up text unchanged without parameters, and otherwise the left fold of replace-all over the entries |
| I18nDev.Keys | src/i18n/dev-utils.ts:58-59 | the table's keys, in order |
| I18nDev.MissingKeys | src/i18n/dev-utils.ts:58-59 | exactly the keys of the first table absent from the second |
| I18nDev.BlankKeysIff | src/i18n/dev-utils.ts:72-86 | a key is listed as empty iff one of its entries trims to "" |
| I18nDev.PushBlankKeys | src/i18n/dev-utils.ts:72-78 | the loop collects exactly the blank keys in order and raises the warning count by their number |
| I18nDev.CheckTranslationCompleteness | src/i18n/dev-utils.ts:33-89 | an empty report in production; otherwise the missing keys both ways and the blank keys of each table, warnings equal to the sum of the four list lengths, and zero errors |
| I18nDev.CleanReportIff | src/i18n/dev-utils.ts:58-86 | the report lists nothing iff both tables have the same keys and no value is blank |
| I18nDev.CheckTranslationKey | src/i18n/dev-utils.ts:154-169 | silent in production; otherwise an absent or falsy value fails with the missing-key message, and the check passes iff the value is a truthy string |
| I18nDev.InheritedKeyIsNotMissing | src/i18n/dev-utils.ts:161-168 | in development a key the language lacks but every object inherits fails with the not-a-string message, not the missing-key one |
| I18nDev.KeyCheckStricterThanCore | src/i18n/dev-utils.ts:154-169 | whatever the development key check accepts the core one accepts, and a non-zero number passes only the core one |
| GameLoader.LocateAnchors | src/components/sections/game/GameController.ts:16-45 | succeeds iff wrapper, iframe, error panel, cover and start button are all found; otherwise the first missing one's message, in that order; the iframe and panel are looked up inside the wrapper |
| GameLoader.Initial | src/components/sections/game/GameController.ts:8-10 | a fresh controller has retryCount 0, no stored handle and nothing armed |
| GameLoader.StartGame | src/components/sections/game/GameController.ts:69-88 | hides the cover, shows the iframe, copies data-src into src only when present, and arms exactly one fresh timeout whose handle it stores; the retry count, the panel, data-src and the retry button are unchanged |
| GameLoader.HandleIframeLoad | src/components/sections/game/GameController.ts:90-95 | cancels the stored timeout, forgets the handle; the retry count, visibility, src, data-src, the retry button and the next timer id are unchanged |
| GameLoader.ShowError | src/components/sections/game/GameController.ts:130-135 | shows the error panel and hides the iframe; the armed timers, the stored handle, the retry count, the iframe's src and data-src, the cover, the next timer id and the retry button are unchanged |
| GameLoader.Retry | src/components/sections/game/GameController.ts:114-128 | hides the error panel, shows the iframe, reloads src from data-src and arms a fresh timeout; the retry count, the cover, data-src and the retry button are unchanged |
| GameLoader.HandleError | src/components/sections/game/GameController.ts:97-108 | cancels the stored timeout and raises retryCount by exactly one; below 3 it retries: error panel hidden, iframe shown and reloaded from data-src, a fresh timeout armed, cover untouched; otherwise it shows the error panel and hides the iframe, with the cancelled handle still stored, no fresh timeout armed and src and cover untouched; data-src and the retry button are unchanged in both cases |
| GameLoader.HandleTimeout | src/components/sections/game/GameController.ts:110-112 | shows the error panel and hides the iframe without changing the retry count, the armed timers, the stored handle, the next timer id, the iframe's src, the cover, data-src or the retry button |
| GameLoader.Step | src/components/sections/game/GameController.ts:50-67 | each event keeps the controller's handle invariant; a retry click acts only when the panel has a retry button |
| GameLoader.Run | src/components/sections/game/GameController.ts:50-67 | every trace of events keeps the controller's handle invariant |
| GameLoader.StepRetryCount | src/components/sections/game/GameController.ts:101 | only an error event changes the retry count, by exactly one |
| GameLoader.RunRetryCount | src/components/sections/game/GameController.ts:101 | after a trace the retry count has grown by the number of error events in it |
| GameLoader.RetryCountNeverDecreases | src/components/sections/game/GameController.ts:8-101 | no trace decreases the retry count |
| GameLoader.ThirdFailureShowsPanel | src/components/sections/game/GameController.ts:97-108 | from a fresh controller the first two errors retry and the third shows the panel |
| GameLoader.RunAppend | src/components/sections/game/GameController.ts:50-67 | running a trace and one more event is stepping the trace's result |
| GameLoader.RetriesStayExhausted | src/components/sections/game/GameController.ts:103-107 | once two failures are counted every later error shows the panel and hides the iframe |
| GameLoader.SingleTimerAtMostOne | src/components/sections/game/GameController.ts:10 | when only the stored handle can be armed, at most one timer is armed |
| GameLoader.StepKeepsSingleTimer | src/components/sections/game/GameController.ts:84-128 | loads, errors and timeouts keep at most one timer armed, and so do start and retry clicks when no timer is armed |
| GameLoader.PanelShownLeavesNoTimer | src/components/sections/game/GameController.ts:97-112 | when an error or a timeout newly shows the panel, no timer is left armed |
| GameLoader.DoubleStartArmsTwoTimers | src/components/sections/game/GameController.ts:69-88 | two start clicks leave two timers armed, since startGame does not cancel the first |
| GameLoader.TimeoutsAreNotCounted | src/components/sections/game/GameController.ts:110-112 | timeouts show the panel without raising the retry count |
| GameEmbed.GameController.constructor | src/components/sections/game/GameController.ts:12-48 | the controller over the found elements starts in the initial state |
| GameEmbed.GameController.Create | src/components/sections/game/GameController.ts:12-48 | fails with the first missing element's message, otherwise builds a controller in the initial state |
| GameEmbed.GameController.ArmTimeout | src/components/sections/game/GameController.ts:84-87 | arms a fresh timeout and stores its handle, as the value model does |
| GameEmbed.GameController.StartGame | src/components/sections/game/GameController.ts:69-88 | updates the fields as GameLoader.StartGame does |
| GameEmbed.GameController.HandleIframeLoad | src/components/sections/game/GameController.ts:90-95 | updates the fields as GameLoader.HandleIframeLoad does |
| GameEmbed.GameController.HandleError | src/components/sections/game/GameController.ts:97-108 | updates the fields as GameLoader.HandleError does |
| GameEmbed.GameController.HandleTimeout | src/components/sections/game/GameController.ts:110-112 | updates the fields as GameLoader.HandleTimeout does |
| GameEmbed.GameController.Retry | src/components/sections/game/GameController.ts:114-128 | updates the fields as GameLoader.Retry does |
| GameEmbed.GameController.ShowError | src/components/sections/game/GameController.ts:130-135 | updates the fields as GameLoader.ShowError does |
| GameEmbed.GameController.TimerFires | src/components/sections/game/GameController.ts:84-87 | a still-armed timeout runs handleTimeout and is disarmed; any other id changes nothing |
| Schema.GameSchemaChecks | src/utils/schema.ts:168-195 | `validateGameSchema`'s checks as an ordered list of (condition, message): name and description, url, image, rating, author email, publisher url |
| Schema.ValidateGameSchema | src/utils/schema.ts:168-195 | passes iff the schema is valid; checks name and description, then url, image, rating (only when present), author email and publisher url, in that order; any failure is the message of the first failing check, every earlier check having held |
| Schema.RatingBeforeEmail | src/utils/schema.ts:181-190 | with valid texts and URLs, a bad rating is reported before the author email |
| Schema.AbsentRatingNotChecked | src/utils/schema.ts:181 | without a rating the verdict does not depend on the rating test |
| Schema.ResolveUrl | src/utils/schema.ts:198-204 | http:// and https:// paths come back unchanged; others are resolved against the base |
| Schema.AbsoluteIgnoresBase | src/utils/schema.ts:199-201 | an absolute path resolves to itself whatever the base and the resolver |
| Schema.BuildGameSchema | src/utils/schema.ts:213-297 | the schema object `generateGameSchema` builds: the site's name and description, the canonical URL, the resolved image, and the fixed genres, platforms, offer, rating, review and the creator as author |
| Schema.GenerateGameSchema | src/utils/schema.ts:213-309 | returns the built schema iff it validates, and otherwise fails with the validation's own error |
| Schema.ValidSiteGivesGameSchema | src/utils/schema.ts:213-309 | a valid site whose URLs parse yields a game schema that carries the site's name, description and URLs |
| Schema.InvalidUrls | src/utils/schema.ts:322-325 | exactly the item URLs that do not parse, in input order |
| Schema.ListItems | src/utils/schema.ts:332-337 | one list item per breadcrumb, with position i + 1 and the name and URL copied |
| Schema.Trail | src/utils/schema.ts:332-337 | recovers one breadcrumb per list item |
| Schema.GenerateBreadcrumbSchema | src/utils/schema.ts:317-339 | fails on an empty list, then with all invalid URLs joined by ", "; succeeds iff the list is non-empty and every URL parses, with item i at position i + 1 and the breadcrumbs recoverable |
| Schema.BreadcrumbPositionsIncrease | src/utils/schema.ts:332-334 | positions strictly increase along the list |
| Schema.Questions | src/utils/schema.ts:362-369 | one question per FAQ item, carrying its question and answer |
| Schema.FaqItems | src/utils/schema.ts:362-369 | recovers one FAQ item per question |
| Schema.NoBlankItemIff | src/utils/schema.ts:352-354 | an item is blank iff its question or its answer trims to "" |
| Schema.FaqItemsOfQuestions | src/utils/schema.ts:362-369 | the mapping to questions loses nothing: the items come back from it |
| Schema.GenerateFaqSchema | src/utils/schema.ts:347-371 | fails with the empty-list message on an empty list, and with the blank-item message on a non-empty list with a blank question or answer; otherwise maps the items one to one and in order |
| Schema.GenerateOrganizationSchema | src/utils/schema.ts:379-397 | fails with the name message when the creator's name or description is empty, and with the email message when both are present and the email lacks "@"; otherwise copies the creator fields and the site URL |
| Schema.ValidCreatorGivesOrganization | src/utils/schema.ts:379-397 | a creator that passes site validation always yields an organization |
| Image.OptionChecks | src/utils/image.ts:66-82 | `validateOptions`'s checks as an ordered list of (condition, message): src, alt, then width, height and quality only when truthy |
| Image.ValidateOptions | src/utils/image.ts:66-82 | passes iff src and alt are non-empty and width, height and quality are valid whenever they are truthy; src is reported first, then alt; any failure is the message of the first failing check in source order |
| Image.ZeroIsNotRejected | src/utils/image.ts:72-80 | zero width, height and quality pass because zero is falsy; a negative width does not pass |
| Image.SrcSetEntries | src/utils/image.ts:160-161 | one entry per size, in order |
| Image.GenerateSrcSet | src/utils/image.ts:145-163 | fails on an empty src, then on empty sizes, then on a size of 0 or less; otherwise the entries joined by ", " |
| Image.SrcSetEntryNamesSize | src/utils/image.ts:161 | each entry is "src?w=N&format=F Nw", with N the size's decimal digits |
| Image.SizesEntries | src/utils/image.ts:180-181 | one "(min-width: Bpx) Spx" entry per breakpoint, in order |
| Image.GenerateSizes | src/utils/image.ts:170-183 | fails on empty breakpoints, then on a size of 0 or less; otherwise the entries joined by ", " |
| Image.SingleSizeSrcSet | src/utils/image.ts:145-163 | a single positive size gives exactly its one entry |
| Preload.SetIfTruthy | src/utils/preload.ts:77-87 | an optional attribute is set, to the given value, iff that value is present and non-empty |
| Preload.CreatePreloadLink | src/utils/preload.ts:63-90 | fails on an empty or unparsable href before checking as; succeeds iff href parses and as is set, giving rel "preload" with href and as copied, and type, crossorigin and media each set to the given value when it is truthy and absent otherwise |
| Preload.PreloadAccounted | src/utils/preload.ts:107-118 | every resource becomes either one link or one error |
| Preload.PreloadedLinksAppend | src/utils/preload.ts:107-118 | a failing resource does not stop later ones: links of a + b are links of a then links of b |
| Preload.PreloadErrorsEmptyIff | src/utils/preload.ts:107-118 | no error is recorded iff every resource makes a link |
| Preload.DnsLinksExactly | src/utils/preload.ts:232-249 | a dns-prefetch link exists for a domain iff it is listed and "https://" + domain parses |
| Preload.DnsAccounted | src/utils/preload.ts:232-249 | every domain becomes either one link or one error |
| Preload.AsResources | src/utils/preload.ts:135-138 | one resource per URL, in order, with the given as and nothing else |
| Preload.FontResources | src/utils/preload.ts:153-158 | one font resource per font, with its URL, as "font", its MIME type, no media and crossorigin defaulting to "anonymous" |
| Preload.Head.constructor | src/utils/preload.ts:104 | a head with no links |
| Preload.Head.PreloadCriticalResources | src/utils/preload.ts:97-123 | no-op without a document; refuses an empty list; otherwise appends the links of the valid resources in order and records each failure with its 1-based position |
| Preload.Head.PreloadUrls | src/utils/preload.ts:130-197 | refuses an empty list before looking at the document; otherwise preloads each URL with the given as |
| Preload.Head.PreloadImages | src/utils/preload.ts:130-141 | refuses an empty list; does nothing without a document; otherwise preloads each URL as "image" and reports the failures |
| Preload.Head.PreloadScripts | src/utils/preload.ts:168-179 | refuses an empty list; does nothing without a document; otherwise preloads each URL as "script" and reports the failures |
| Preload.Head.PreloadStyles | src/utils/preload.ts:186-197 | refuses an empty list; does nothing without a document; otherwise preloads each URL as "style" and reports the failures |
| Preload.Head.PreloadFonts | src/utils/preload.ts:148-161 | refuses an empty list; otherwise preloads each font with its resource |
| Preload.Head.PreloadNextPage | src/utils/preload.ts:204-215 | refuses an empty or unparsable URL with no errors and nothing appended; a valid URL without a document passes with no errors and nothing appended; with a document it passes, reports no errors and appends exactly one "document" preload for the URL |
| Preload.Head.DnsPrefetch | src/utils/preload.ts:222-254 | no-op without a document; refuses an empty list; otherwise appends exactly the prefetch links of the parsable domains and records the others by 1-based position |
| A11y.SetAttr | src/utils/a11y.ts:137 | sets one attribute and leaves every other attribute, the display and the text unchanged |
| A11y.RemoveAttr | src/utils/a11y.ts:233 | removes one attribute and leaves everything else unchanged |
| A11y.Hidden | src/utils/a11y.ts:136-139 | `hide`: isHidden holds and the display is "none"; every other attribute and the text are unchanged |
| A11y.Shown | src/utils/a11y.ts:141-144 | `show`: aria-hidden is "false", so isHidden fails, and the display is ""; every other attribute and the text are unchanged |
| A11y.Toggled | src/utils/a11y.ts:146-155 | `toggle`: isHidden is negated and aria-hidden agrees with the display afterwards; every other attribute and the text are unchanged |
| A11y.HideShow | src/utils/a11y.ts:136-157 | hide makes isHidden true with display "none"; show makes it false with display ""; no other attribute changes |
| A11y.ToggleTwice | src/utils/a11y.ts:146-155 | toggle negates isHidden, so two toggles restore it, and restore a consistent element itself |
| A11y.Announced | src/utils/a11y.ts:172-181 | refuses an empty message; otherwise sets aria-live to the priority and the text to the message |
| A11y.AnnounceThenClear | src/utils/a11y.ts:183-185 | after an announcement, clear empties the text and keeps the priority |
| A11y.SetLabel | src/utils/a11y.ts:204-209 | `setLabel`: refuses exactly the empty text, and otherwise sets aria-label to it |
| A11y.SetLabelledBy | src/utils/a11y.ts:211-216 | `setLabelledBy`: refuses exactly the empty id, and otherwise sets aria-labelledby to it |
| A11y.SetDescription | src/utils/a11y.ts:218-223 | `setDescription`: refuses exactly the empty text, and otherwise sets aria-description to it |
| A11y.SetDescribedBy | src/utils/a11y.ts:225-230 | `setDescribedBy`: refuses exactly the empty id, and otherwise sets aria-describedby to it |
| A11y.SetNonEmpty | src/utils/a11y.ts:204-230 | a label setter refuses an empty value with its message and otherwise sets the attribute |
| A11y.LabelRemoved | src/utils/a11y.ts:232-235 | `removeLabel`: aria-label and aria-labelledby are absent afterwards; every other attribute, the display and the text are unchanged |
| A11y.DescriptionRemoved | src/utils/a11y.ts:237-240 | `removeDescription`: aria-description and aria-describedby are absent afterwards; every other attribute, the display and the text are unchanged |
| A11y.RemoveLabelAndDescription | src/utils/a11y.ts:232-240 | removeLabel drops aria-label and aria-labelledby and nothing else; removeDescription drops the two description attributes and nothing else |
| A11y.SetFlag | src/utils/a11y.ts:255-278 | the boolean state setters: the attribute reads "true" exactly when given true and "false" exactly when given false; other attributes are unchanged |
| A11y.FlagRoundTrip | src/utils/a11y.ts:255-288 | each state getter reads back "true" exactly when its setter was given true |
| A11y.SetDisabled | src/utils/a11y.ts:267-274 | `setDisabled`: aria-disabled is "true" exactly when disabling; disabling sets tabindex "-1" and enabling removes it |
| A11y.DisabledRoundTrip | src/utils/a11y.ts:267-274 | setDisabled(true) sets aria-disabled "true" and tabindex "-1"; setDisabled(false) sets "false" and removes tabindex |
| A11y.Element.constructor | src/utils/a11y.ts:67-76 | an element with the given attributes, display and text |
| A11y.Element.Restore | src/utils/a11y.ts:67-76 | the element takes the given value |
| A11y.Element.Hide | src/utils/a11y.ts:136-139 | changes the element as A11y.Hidden does |
| A11y.Element.Show | src/utils/a11y.ts:141-144 | changes the element as A11y.Shown does |
| A11y.Element.Toggle | src/utils/a11y.ts:146-155 | changes the element as A11y.Toggled does |
| A11y.Element.Announce | src/utils/a11y.ts:172-181 | refuses an empty message leaving the element unchanged; otherwise changes it as A11y.Announced does |
| A11y.Element.Clear | src/utils/a11y.ts:183-185 | empties the text only |
| A11y.Element.SetPriority | src/utils/a11y.ts:187-189 | sets aria-live only |
| A11y.Element.SetLabelAttribute | src/utils/a11y.ts:204-230 | refuses an empty value leaving the element unchanged; otherwise sets that one attribute |
| A11y.Element.RemoveLabel | src/utils/a11y.ts:232-235 | changes the element as A11y.LabelRemoved does |
| A11y.Element.RemoveDescription | src/utils/a11y.ts:237-240 | changes the element as A11y.DescriptionRemoved does |
| A11y.Element.SetStateFlag | src/utils/a11y.ts:255-278 | sets the state attribute to "true" or "false" |
| A11y.Element.SetDisabledState | src/utils/a11y.ts:267-274 | changes the element as A11y.SetDisabled does |
| A11y.ValidateElement | src/utils/a11y.ts:67-76 | passes iff the element is not null, and fails with the null-element message otherwise |
| A11y.ManageFocus | src/utils/a11y.ts:84-123 | refuses a null container, then one without focusable elements; otherwise the first and last focusable elements |
| A11y.TrapFocus | src/utils/a11y.ts:103-117 | Tab on the last element moves to the first and Shift+Tab on the first moves to the last, both preventing the default; nothing else moves focus or prevents it |
| A11y.TrapCycles | src/utils/a11y.ts:103-117 | Tab from the last and then Shift+Tab from the first return to the last |
| A11y.ManageShortcuts | src/utils/a11y.ts:298-310 | refuses an empty configuration; the handler calls exactly the handler mapped to the key, after preventing the default, and does nothing for other keys |
| A11y.ShortcutCallsOnlyMapped | src/utils/a11y.ts:303-309 | a handler runs only for its own key and only with the default prevented |
| Performance.Call | src/utils/performance.ts:13-24 | one call: the pending timer is cleared, a new timer holding this call's arguments is armed last and its id stored in timeoutId, and nothing runs |
| Performance.Fire | src/utils/performance.ts:20-23 | a fire leaves no timer with that id armed; fn runs at most once, with the arguments captured by the timer of that id, and then timeoutId is undefined; an id no timer has changes nothing |
| Performance.Cleared | src/utils/performance.ts:17 | exactly the armed timers other than the cleared id |
| Performance.Armed | src/utils/performance.ts:20-23 | the captured arguments of an armed timer with the id, and none iff no timer has the id |
| Performance.CallKeepsValid | src/utils/performance.ts:16-23 | a call cancels the pending timer before arming one for its own arguments, so exactly one timer is armed and nothing runs |
| Performance.FireKeepsValid | src/utils/performance.ts:20-23 | firing the pending timer clears timeoutId and runs fn once with the captured arguments; any other id changes nothing |
| Performance.CallAllPending | src/utils/performance.ts:11-24 | after n ≥ 1 calls only the last call's timer is armed and nothing has run |
| Performance.CallsThenFireRunsLast | src/utils/performance.ts:7-25 | n ≥ 1 calls followed by the pending timer's firing run fn exactly once, with the last call's arguments |
| Performance.Debounced.constructor | src/utils/performance.ts:7-11 | nothing pending and nothing run |
| Performance.Debounced.Invoke | src/utils/performance.ts:13-24 | one call: exactly one timer armed, for these arguments, and the invariant kept |
| Performance.Debounced.FireTimer | src/utils/performance.ts:20-23 | the pending timer runs fn with its captured arguments and clears timeoutId; other ids change nothing |
| LanguageSelector.LanguageOptions | src/components/ui/LanguageSelectorClient.tsx:41-47 | one option per language entry, in order, with code, name and locale copied |
| LanguageSelector.KeyDown | src/components/ui/LanguageSelectorClient.tsx:70-115 | only Enter or Space on an open menu navigates; on a closed menu the default is prevented iff the key is Enter or Space; no key closes an open menu; with at least one option the active index stays in range |
| LanguageSelector.EscKey | src/components/ui/LanguageSelectorClient.tsx:61-67 | Escape on an open menu closes it with no active option; anything else changes nothing |
| LanguageSelector.ClickOutside | src/components/ui/LanguageSelectorClient.tsx:50-58 | a click outside an open menu closes it with no active option; a click inside, or on a closed menu, changes nothing |
| LanguageSelector.ToggleMenu | src/components/ui/LanguageSelectorClient.tsx:139-142 | flips isOpen and clears the active index |
| LanguageSelector.Destination | src/components/ui/LanguageSelectorClient.tsx:105-109 | a path iff the index is an option's and its code is non-empty, and then that option's path |
| LanguageSelector.ClosedKeys | src/components/ui/LanguageSelectorClient.tsx:72-79 | on a closed menu Enter or Space opens it at index 0, preventing the default; any other key does nothing |
| LanguageSelector.ArrowsWrap | src/components/ui/LanguageSelectorClient.tsx:82-93 | ArrowDown wraps from the last index to 0, ArrowUp wraps from 0 or -1 to the last, and the two undo each other |
| LanguageSelector.ActivationNavigates | src/components/ui/LanguageSelectorClient.tsx:102-111 | on an open menu Enter or Space prevents the default and navigates iff the active index is an option's, to that option's path |
| LanguageSelector.OnlyActivationNavigates | src/components/ui/LanguageSelectorClient.tsx:70-115 | only Enter or Space on an open menu navigates |
| LanguageSelector.ClosingResets | src/components/ui/LanguageSelectorClient.tsx:50-142 | Escape and an outside click close the menu and clear the active index; a click inside changes nothing; toggle flips isOpen and clears the index |
| LanguageSelector.HandlersKeepValid | src/components/ui/LanguageSelectorClient.tsx:72-142 | with at least one option every handler keeps the active index within -1 and the last index, and a closed menu without an active option |
| LanguageSelector.NoOptionsBreaksRange | src/components/ui/LanguageSelectorClient.tsx:84-86 | without options, ArrowDown on an open menu makes the non-existent index 0 active |
| LanguageSelector.KeyDownAsWritten | src/components/ui/LanguageSelectorClient.tsx:70-115 | the handler as written: every branch reads the current state except Enter/Space on an open menu, which reads the index captured when isOpen last changed |
| LanguageSelector.StaleIndexIgnoresArrows | src/components/ui/LanguageSelectorClient.tsx:102-114 | after a click open, ArrowDown and Enter, the handler as written navigates nowhere, while read over the current state it goes to the first option |
| LanguageSelector.Selector.constructor | src/components/ui/LanguageSelectorClient.tsx:34-47 | closed with active index -1, over the options of the language table |
| LanguageSelector.Selector.HandleKeyDown | src/components/ui/LanguageSelectorClient.tsx:70-115 | the new state, the default prevention and the navigation are those of LanguageSelector.KeyDown |
| LanguageSelector.Selector.HandleEscKey | src/components/ui/LanguageSelectorClient.tsx:61-127 | changes the state as LanguageSelector.EscKey does |
| LanguageSelector.Selector.HandleClickOutside | src/components/ui/LanguageSelectorClient.tsx:50-127 | changes the state as LanguageSelector.ClickOutside does |
| LanguageSelector.Selector.Toggle | src/components/ui/LanguageSelectorClient.tsx:139-142 | flips isOpen and clears the active index |
| OrientationNotice.Initial | src/components/ui/orientation/OrientationNoticeClient.tsx:26-27 | the notice starts visible with rememberChoice false |
| OrientationNotice.Update | src/components/ui/orientation/OrientationNoticeClient.tsx:38-44 | when suppressed nothing changes; otherwise the notice renders iff the orientation is "portrait"; storage and rememberChoice are unchanged |
| OrientationNotice.Mount | src/components/ui/orientation/OrientationNoticeClient.tsx:29-48 | suppressed iff the stored remember flag is "true" and the stored preference "continue", and then hidden; otherwise rendered iff in portrait; storage is only read |
| OrientationNotice.Continue | src/components/ui/orientation/OrientationNoticeClient.tsx:59-65 | hides the notice; with rememberChoice it stores preference "continue" and the remember flag "true", otherwise storage is unchanged; other keys are untouched |
| OrientationNotice.Rotate | src/components/ui/orientation/OrientationNoticeClient.tsx:50-57 | hides the notice; with rememberChoice it stores preference "rotate" and the remember flag "true", otherwise storage is unchanged; other keys are untouched |
| OrientationNotice.RememberedContinueStaysHidden | src/components/ui/orientation/OrientationNoticeClient.tsx:29-48 | a stored remember flag "true" with preference "continue" hides the notice at mount, and it stays hidden through every later orientation change |
| OrientationNotice.SuppressedUpdates | src/components/ui/orientation/OrientationNoticeClient.tsx:40-42 | once suppressed, orientation updates change nothing |
| OrientationNotice.VisibleFollowsOrientation | src/components/ui/orientation/OrientationNoticeClient.tsx:38-46 | without a remembered "continue", including after a remembered "rotate", each update shows the notice exactly in portrait |
| OrientationNotice.ChoicesHideAndStore | src/components/ui/orientation/OrientationNoticeClient.tsx:50-65 | continue and rotate both hide the notice; with rememberChoice they store their preference and the remember flag, otherwise storage is untouched; other keys are kept |
| OrientationNotice.NextVisit | src/components/ui/orientation/OrientationNoticeClient.tsx:29-65 | a remembered "continue" keeps the next mount hidden in any orientation; a remembered "rotate" shows it again in portrait |
| OrientationNotice.Notice.constructor | src/components/ui/orientation/OrientationNoticeClient.tsx:26-27 | the initial state over the given storage |
| OrientationNotice.Notice.UpdateOrientation | src/components/ui/orientation/OrientationNoticeClient.tsx:38-44 | changes the state as OrientationNotice.Update does |
| OrientationNotice.Notice.OnMount | src/components/ui/orientation/OrientationNoticeClient.tsx:29-48 | changes the state as OrientationNotice.Mount does |
| OrientationNotice.Notice.StoreChoice | src/components/ui/orientation/OrientationNoticeClient.tsx:50-65 | writes the preference and the remember flag only when rememberChoice is set |
| OrientationNotice.Notice.HandleContinue | src/components/ui/orientation/OrientationNoticeClient.tsx:59-65 | changes the state as OrientationNotice.Continue does |
| OrientationNotice.Notice.HandleRotate | src/components/ui/orientation/OrientationNoticeClient.tsx:50-57 | changes the state as OrientationNotice.Rotate does |
| OrientationNotice.Notice.HandleRememberChange | src/components/ui/orientation/OrientationNoticeClient.tsx:67-69 | sets rememberChoice to the checkbox value |

## Left out

- Runtime type tests (`typeof`, `Array.isArray`, `instanceof HTMLElement`) are not modelled: the Dafny types already guarantee them. A null element is the only way `validateElement` fails here.
- Numbers are unbounded integers. NaN, Infinity and fractional values of timeouts, sizes, ratings and image dimensions are not modelled.
- The rating check `isValidRating` uses `parseFloat`, so it is a parameter. `new URL` is the parameter `parses`, and relative resolution in `resolveUrl` is the parameter `resolve`.
- `optimizeImage` and its call to `getImage` from `astro:assets` are not modelled: it is a foreign image service.
- `isValidImageQuality` is imported from a file that does not define it, so it is modelled as the range 1 to 100 that its error message names.
- The theme fields that are never validated are carried in shape only: rgb, darker-rgb, timing, shadows and typography.
- `Object.entries`/`Object.keys`/`Object.values` order is the order of the given entry lists; insertion order of real objects is not modelled.
- The schema.org `@context` and `@type` tags are not modelled; the rest of each payload, including the game schema's fixed rating, review and offer, is.
- A11y.ManageShortcuts: `shortcuts[event.key]` also finds names every object inherits, such as "constructor"; the model looks up the configuration's own keys only. Keyboard event keys never take those names, so the handler's behaviour is the same.
- Console logging is left out. Errors that the code logs are returned as lists (`errors` of the preload methods); errors it throws are `Err`/`Fail` values.
- Real timers are not modelled. Wall-clock time, `loadTimeout`, `wait` and the `retryInterval` value are left out; a timer fires only as an explicit event.
- `debounce` passes the call's `this` along; the model does not, since it travels with the arguments.
- The DOM is not modelled: rendering, focus moves (`focus()`, the focus effect of the language selector, `setInitialFocus`), the browser's navigation and event listener registration. Listeners are modelled as the handlers they call.
- The React lifecycle is not modelled: batching of state updates and the effect clean-ups. The stale closure of the key handler is stated under Findings.
- The screen orientation lock in `handleRotate` is not modelled: the notice hides whatever its outcome.
- `src/utils/mobile.ts` supplies the current orientation, which is a parameter here; otherwise it is not part of this model.
- `manageShortcuts` refuses a `null` configuration in the source; a map value cannot be null here, so only the empty configuration is modelled.
- Keys used in `new RegExp` are matched literally. Regular-expression special characters in parameter names and `$` patterns in replacement values are not modelled. An all-digit parameter name such as "0" makes `{0}` a quantifier with nothing to repeat, so the source throws a SyntaxError (src/i18n/core/utils.ts:34, src/i18n/utils.ts:20); I18nCore.Interpolate and I18nLegacy.Translate substitute it instead.
- I18nLegacy.GetLangFromUrl: `lang in ui` is read as "is a language of the table". The source's `in` also sees inherited names such as "constructor"; the same defect is stated for the core version under Findings.
- I18nCore.IsValidLanguage: `lang in ui` is read as "is one of ui's own languages"; the source's `in` also accepts names every object inherits, such as "constructor", so the source reports those as valid languages and the model does not.
- I18nCore.GetBrowserLanguage: `browserLang in ui` is read as an own-language test; a navigator language whose primary subtag is an inherited name such as "constructor" is returned by the source and replaced by "en" in the model.
- I18nCore.Lookup: `ui[lang][key] ?? ui[defaultLang][key]` reads an own entry or falls back to the default language; for a key the language lacks that is an inherited name such as "constructor", the source reads the `Object.prototype` member instead of falling back, so the production text in that case is not modelled (the development key check does model it, through I18nCore.Get).
- I18nDev.MissingKeys: `key in zh` and `key in en` in the completeness report (src/i18n/dev-utils.ts:58-59) have the same inherited-names behaviour; the model reads them as own keys of the table, so a key such as "constructor" is reported missing where the source would not report it.
- Schema.ResolveUrl: `new URL(base)` throws for a base that does not parse (src/utils/schema.ts:202); the only caller passes the site's validated canonical URL, so the model leaves this error out and hands relative paths to the resolver.
- `src/i18n/dev-utils.ts` copies `checkParams`, `checkTranslationParams` and `isValidTranslationText` from the core; the core members model them (I18nCore.CheckParams, I18nCore.CheckTranslationParams, I18nCore.IsValidTranslationText).
- The route handlers, the CLI translation check, the translation tables and the build and test configuration are not part of this model.

## Findings

| source | as written | input that shows it | evidently intended | confidence | as-written member | corrected member |
|---|---|---|---|---|---|---|
| src/i18n/core/utils.ts:15 | `lang in ui` also holds for names every object inherits, so such a segment is returned as the language | pathname "/constructor" gives "constructor", which is not a supported language | return the segment only when it is one of `ui`'s own languages, so the result is always supported | not executed | I18nCore.GetLangFromUrlAsWrittenEscapes | I18nCore.GetLangFromUrl |
| src/components/ui/LanguageSelectorClient.tsx:114 | `handleKeyDown` is memoised without `activeIndex`, so its Enter/Space branch reads the index of the render at which `isOpen` last changed | open the menu with a click (index -1), press ArrowDown (index 0), press Enter: nothing is navigated and the default is prevented | Enter/Space navigates to the option the arrows made active | not executed | LanguageSelector.StaleIndexIgnoresArrows | LanguageSelector.ActivationNavigates |
