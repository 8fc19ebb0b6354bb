# studio-pickens-handover: a Dafny model of the content API and the site's decision rules

The repository is a marketing site for a studio together with its
content-management API. An admin signs in and edits structured content: the
hero copy, the work portfolio, the FAQ, the process steps, the story, the
locations and the contact details. Each of these is one JSON document on
disk. Visitors read the documents through public `GET` routes. This project
models the server side of that API and the small decision rules in the
client code, and proves what each of them promises.

Server side:

- **Request gate and security headers** (`ErrorHandler`, `Http`). The gate
  decides from the method, the path and the headers whether a request must
  carry an `Authorization` header. The headers stage sets the basic,
  production and policy headers and removes `X-Powered-By`.
- **Errors and envelopes** (`AppErrors`, `ErrorHandler`). Maps each error
  kind to its status and code, and builds the success and error bodies.
- **Document store** (`DocumentStore`). A class holds the disk as a map from
  path to file entry. Reads tell a missing file from unparseable text. A
  write serialises first, then copies a best-effort backup, then writes.
  The JSON checks and the key sanitiser are modelled too.
- **Accounts and tokens** (`Auth`). A class holds the user list. It models
  bootstrap, login, the current-user answer and password change, plus the
  `requireAuth` and `requireAdmin` gates. Token signing and password
  hashing are parameters: a library value plus a predicate
  (`SoundTokens`, `SoundHasher`) that states the round trip the real
  library promises. Tokens round-trip for user ids that are `null`, a
  string or a whole number. Passwords are compared on their bcrypt key:
  the first 72 bytes of their UTF-8 text and a terminating zero
  (`BcryptKey`). `AuthLibraries` gives a library and a hasher that meet
  both predicates, so the lemmas that assume them are not vacuous.
- **Validation rules** (`Schema`, `SchemaFacts`, `ResourceSchemas`,
  `ResourceFacts`, `ValidationMiddleware`). The rule tables of the resource
  schemas are interpreted over a JSON value type. They check required
  members, types, trimming, bounds, enumerations, patterns, defaults,
  unknown keys and collection caps, and report details in the validation
  library's format. The three request middlewares (body schema, uploaded
  file, id parameter) replace the checked part of the request in place.
- **Legacy routes** (`LegacyRoutes`, `HeroRoutes`, `Uploads`, `ImageWalk`).
  These are the handlers of the legacy server as methods on a class that
  holds the disk. Collections are appended with a server id, filtered on
  delete, and updated by find-index with the id kept. Steps are numbered.
  The upload name rule and file filter are modelled, and so is the
  recursive image listing.
- **Data-integrity validators** (`LocationValidation`, `MapsUrl`,
  `LocationConsistency`, `ContactValidation`, `Verdicts`, `Patterns`).
  These push one message per failing check. The Google Maps link check
  uses the part of URL parsing it relies on.
- **Serverless contact handler** (`ContactHandler`). Covers method dispatch,
  CORS headers, required fields, the email check, and success versus mail
  failure.

Client side: the carousel index (`Carousel`), the gallery's sides and
offsets (`WorkGallery`), the work-data partition (`WorkData`), the work
page's filter (`WorkPage`), the two contact forms (`ContactForm`,
`ContactFields`, `ContactPage`), the FAQ accordion (`FaqSection`, `Sorting`),
the navigation bar (`Navbar`), the location keys, labels and lists
(`SiteLocations`, `LocationButton`, `FooterLocations`, `LocationsPage`),
the mobile work item (`MobileWorkItem`), and the class-string combiners
(`ClassLists`, `Typography`, `Animations`).

JavaScript itself is modelled in `JsValue`, `JsValueFacts`, `Strings`,
`Sequences` and `Wrappers`. That covers values, truthiness, property
access, strict equality, spread, `JSON.stringify`, `parseInt`, `trim`,
`split`, `replace` and `filter`.

Two behaviours of the source needed a decision:

- **A missing document in the legacy server.** `readJsonFile` throws
  `NotFoundError` for a missing file. So the fallbacks `|| { projects: [] }`
  and `if (!data) 404` fire only when the file holds a falsy JSON value:
  `null`, `false`, `0` or `""`. A missing file reaches each handler's
  `catch` and is answered 500 `{ error: 'Server error' }`. The model does
  exactly this (`LegacyRoutes.MissingDocumentFails`).
- **Errors of the legacy server.** server-old.js imports the central
  `errorHandler` (line 40) but never mounts it: the middleware list
  (lines 96-105) and the routes are followed directly by `app.listen`.
  Every error a route passes to `next` therefore reaches Express's final
  handler. That handler answers the error's `status` or `statusCode` when
  it is a 4xx or 5xx status and 500 otherwise, with the stack outside
  production (`Http.FinalHandler`). The model follows this code
  (`HeroRoutes.HeroFetchFailures`, `Uploads.UploadRefusals`). What the
  central handler would answer is kept beside it
  (`HeroRoutes.HeroFetchFailuresMounted`, `Uploads.UploadRefusalsMounted`).
  The gap is listed under Findings.
- **Text lengths.** JavaScript's `length` counts UTF-16 code units, so a
  character outside the Basic Multilingual Plane counts two. Every length
  bound of the model (contact fields, schema lengths, the six-character
  password minimum) is stated in code units (`Unicode.Utf16Length`).
- **Unknown hero keys.** `validateSchema` passes `stripUnknown: true`, but
  that flag strips unknown keys only from objects that do not set their own
  unknown-key rule. `heroSchema` sets `.unknown(false)` explicitly, so an
  extra top-level hero key is reported and the request is refused with 400
  `VALIDATION_ERROR`, as the repository's test expects
  (`ResourceFacts.HeroUnknownKeyReported`,
  `ValidationMiddleware.HeroExtraKeyRejected`). Nested hero objects and
  every other schema strip unknown keys without a report
  (`ResourceFacts.ProjectUnknownKeyDropped`).

## Model

| member | source | states |
|---|---|---|
| ClassLists.KeptTexts | src/constants/typography.js:98 | `filter(Boolean)` keeps at most as many entries as it is given, never an empty string, and exactly the non-empty strings among the arguments |
| ClassLists.JoinLength | src/constants/typography.js:98 | a space join is as long as its parts plus one separator between each two neighbours, so no stray separator is added |
| ClassLists.JoinAppend | src/constants/typography.js:98 | joining two non-empty lists puts exactly one separator between their joins |
| ClassLists.KeptAppend | src/constants/typography.js:98 | filtering a concatenation of argument lists filters each list, in order |
| ClassLists.CombineEmptyIff | src/constants/typography.js:97-99 | the combined list is empty exactly when no argument is a non-empty string |
| ClassLists.CombineAppend | src/constants/animations.js:152-154 | two argument lists that both keep something combine to their combinations with one space between; a list that keeps nothing adds nothing, not even a space |
| ClassLists.CombineDrops | src/constants/typography.js:97-99 | a falsy or empty argument leaves no trace wherever it stands |
| ClassLists.CombinePair | src/constants/animations.js:152-154 | two non-empty class lists combine to the first, one space and the second |
| Typography.ClassesConcat | src/constants/typography.js:106-112 | every common combination is its style, one space and its size or colour modifier |
| Typography.PageTitleClasses | src/constants/typography.js:107 | the page title is the primary heading followed by ` text-4xl md:text-5xl` |
| Animations.ClassesConcat | src/constants/animations.js:157-170 | every common animation is its two parts with one space between |
| Animations.ButtonHoverClasses | src/constants/animations.js:158 | the button hover style is the button transition, a space and the focus ring |
| Animations.FormButtonClasses | src/constants/animations.js:165 | the form button style is the button transition followed by ` hover:bg-studio-orange` |
| Animations.PolaroidDurationAgrees | src/constants/animations.js:88 | the polaroid entry class carries, between its brackets, the decimal text of the 2400 ms polaroid duration of line 146 |
| Sorting.Insert | src/components/FAQSection.jsx:24 | an insertion step of the sort adds exactly the inserted element |
| Sorting.InsertSorted | src/components/FAQSection.jsx:24 | inserting into a list sorted by the key keeps it sorted |
| Sorting.SortBy | src/components/FAQSection.jsx:24 | the sorted copy is ordered by the key and is a permutation of the input |
| Sorting.InsertStable | src/components/FAQSection.jsx:24 | an inserted element goes before the elements of the same key already there |
| Sorting.SortStable | src/components/FAQSection.jsx:24 | the sort is stable: the elements of each key keep their relative order |
| Sorting.SortedUnchanged | src/components/FAQSection.jsx:24 | a list already in order is its own sorted copy |
| FaqSection.SortedItems | src/components/FAQSection.jsx:24 | the items are a copy sorted ascending by `order` holding the same items; no items give the empty list |
| FaqSection.SortedItemsStable | src/components/FAQSection.jsx:24 | items of equal order are listed as the document lists them |
| FaqSection.Toggled | src/components/FAQSection.jsx:8-10 | a toggle gives -1 or the clicked index, and the clicked index exactly when it was not the open one |
| FaqSection.ToggleTwice | src/components/FAQSection.jsx:8-10 | toggling one index twice reopens it exactly when it was open before |
| FaqSection.AriaExpanded | src/components/FAQSection.jsx:45 | `aria-expanded` is true exactly at the open index |
| FaqSection.OneOpen | src/components/FAQSection.jsx:45 | exactly one item is expanded while the open index names an item, none otherwise |
| FaqSection.Render | src/components/FAQSection.jsx:13-24 | the loading text shows exactly while loading; otherwise the sorted items, each with its expanded flag |
| FaqSection.FaqState.constructor | src/components/FAQSection.jsx:5 | the first item starts open |
| FaqSection.FaqState.Toggle | src/components/FAQSection.jsx:8-10 | the open index becomes the toggle of the old one |
| Navbar.AllLinks | src/components/Navbar.jsx:28-29 | the mobile list is the three left links followed by the three right links |
| Navbar.IsActive | src/components/Navbar.jsx:31-35 | the home link is active exactly on `/`; any other link exactly on the paths that start with it |
| Navbar.ActiveBelow | src/components/Navbar.jsx:33 | a link is active on its own page and every page below it |
| Navbar.AtMostOneActive | src/components/Navbar.jsx:31-35 | no path makes two of the bar's links active |
| Navbar.HomeMarksNone | src/components/Navbar.jsx:31-35 | on the home path no link of the bar is active |
| Navbar.PickedLinkActive | src/components/Navbar.jsx:134-142 | after picking a link the bar marks that link and no other |
| Navbar.ScrollProgress | src/components/Navbar.jsx:25 | the scroll progress lies between 0 and 1 |
| Navbar.TitleShownIff | src/components/Navbar.jsx:59 | the centre title shows on every page but home, and on home after 128 pixels of scrolling |
| Navbar.NavbarState.constructor | src/components/Navbar.jsx:14-15 | the bar starts on the current path with the menu closed |
| Navbar.NavbarState.MenuLinks | src/components/Navbar.jsx:131-146 | the open menu lists all the links, the closed one none |
| Navbar.NavbarState.ToggleMenu | src/components/Navbar.jsx:37-39 | the toggle flips the menu and keeps the path |
| Navbar.NavbarState.Navigate | src/components/Navbar.jsx:6-10 | a desktop link or the title moves to its path and leaves the menu as it was |
| Navbar.NavbarState.PickMobileLink | src/components/Navbar.jsx:139-142 | a mobile link moves to its path and closes the menu |
| LocationButton.LocationName | src/components/common/LocationButton.jsx:11-18 | brooklyn, beverlyhills and london get NEW YORK, BEVERLY HILLS and LONDON; every other key its upper case |
| LocationButton.LabelInCapitals | src/components/common/LocationButton.jsx:11-18 | no label has a lower-case letter, whatever the key |
| LocationButton.UnknownLabel | src/components/common/LocationButton.jsx:17 | an unknown key keeps its length and its capitals |
| LocationButton.MinWidthPixels | src/components/common/LocationButton.jsx:20-27 | the width is 280 pixels exactly for beverlyhills, 160 exactly for london, 200 otherwise |
| LocationButton.MinWidthTexts | src/components/common/LocationButton.jsx:20-27 | the width classes are `min-w-[280px]`, `min-w-[160px]` and, for brooklyn and every unknown key, `min-w-[200px]` |
| LocationButton.DotFilledIff | src/components/common/LocationButton.jsx:47-49 | the contact dot is filled in orange exactly when the button is active |
| LocationButton.Render | src/components/common/LocationButton.jsx:29-69 | `mobile` and `contact` get their own forms and every other variant the desktop one; every form shows the location's label; the contact dot follows `isActive`; the desktop span ends with the minimum width |
| SiteLocations.VisibleSorted | src/components/sections/FooterLocations.jsx:31-33 | the visible locations sorted ascending by order, a permutation of the visible ones; none without a list |
| SiteLocations.VisibleMembers | src/pages/locations.jsx:50 | a location is listed exactly when it is in the document and visible |
| SiteLocations.VisibleStable | src/pages/locations.jsx:50 | visible locations of equal order keep the document's order |
| FooterLocations.LocationKey | src/components/sections/FooterLocations.jsx:36 | the key has no whitespace and no capital, and is no longer than the name |
| FooterLocations.LocationKeyIdempotent | src/components/sections/FooterLocations.jsx:36 | a key is its own key |
| FooterLocations.FooterKey | src/components/sections/FooterLocations.jsx:38-43 | `newyork` becomes `brooklyn`; every other key passes through |
| FooterLocations.Render | src/components/sections/FooterLocations.jsx:13-44 | loading and error short-circuit; otherwise one key per visible location in order, none without a list |
| FooterLocations.RemoveSpacesAround | src/components/sections/FooterLocations.jsx:36 | the space between two space-free words is removed and nothing else |
| FooterLocations.LowerAround | src/components/sections/FooterLocations.jsx:36 | lower-casing goes word by word |
| FooterLocations.TwoWordKey | src/components/sections/FooterLocations.jsx:36 | the key of a two-word name is its two lower-cased words joined |
| FooterLocations.NewYorkKey | src/components/sections/FooterLocations.jsx:36 | "New York" has the key `newyork` |
| FooterLocations.NewYorkLabel | src/components/sections/FooterLocations.jsx:36-43 | "New York" reaches the button as `brooklyn` and is labelled NEW YORK |
| FooterLocations.OneWordKey | src/components/sections/FooterLocations.jsx:36 | the key of a one-word name is its lower case |
| FooterLocations.LondonLabel | src/components/sections/FooterLocations.jsx:36-43 | "London" reaches the button as `london` and is labelled LONDON |
| LocationsPage.FinalPosition | src/pages/locations.jsx:67-77 | circles 0-2 end to the left and 3-5 to the right, at 100, 200 or 300 pixels by their place in the group |
| LocationsPage.Delay | src/pages/locations.jsx:79 | the stagger is at most 200 ms |
| LocationsPage.MirroredPairs | src/pages/locations.jsx:74-79 | a left circle and the right circle of the same place end mirrored and share a delay |
| LocationsPage.PositionsDistinct | src/pages/locations.jsx:74-76 | no two circles end in the same place |
| LocationsPage.Offset | src/pages/locations.jsx:92-94 | a circle stays at `translateX(0px)` until the animation starts, then sits at its final position |
| LocationsPage.DelayMs | src/pages/locations.jsx:96 | the delay is 0 ms until the animation starts, then the circle's stagger |
| LocationsPage.Title | src/pages/locations.jsx:117 | no document gives `Locations`; a document without a banner throws; a title that is not `Locations` comes from the banner; the title is never empty |
| LocationsPage.Render | src/pages/locations.jsx:37-140 | loading shows the loading text; a throwing title crashes the page; otherwise the title, the visible sorted locations and the six circles' offsets and delays |
| LocationsPage.LocationsPageState.constructor | src/pages/locations.jsx:6-8 | no document, loading, animation not started |
| LocationsPage.LocationsPageState.FetchDone | src/pages/locations.jsx:10-25 | a fetched document is kept, a failed fetch keeps none; loading ends either way |
| LocationsPage.LocationsPageState.TimerFires | src/pages/locations.jsx:27-35 | the animation starts only once a document is there |
| LocationsPage.FailedFetchShowsTitle | src/pages/locations.jsx:50-117 | after a failed fetch the page shows the default title, no locations and the six circles at rest |
| MobileWorkItem.JsRem | src/components/common/MobileWorkItem.jsx:39 | the remainder of `%` has the sign of the dividend, is smaller than the divisor, and differs from the dividend by a whole multiple of the divisor |
| MobileWorkItem.OnLeftIff | src/components/common/MobileWorkItem.jsx:39 | the badge is on the left exactly for positive odd ids |
| MobileWorkItem.NoCreditsNoContent | src/components/common/MobileWorkItem.jsx:9 | no content, or content without stylist, photographer and date, has nothing to open |
| MobileWorkItem.Label | src/components/common/MobileWorkItem.jsx:52 | every category but MUSIC VIDEO is shown as it is |
| MobileWorkItem.LabelRoundTrip | src/components/common/MobileWorkItem.jsx:49-52 | turning the label's line break back into a space gives the category back |
| MobileWorkItem.RenderBadge | src/components/common/MobileWorkItem.jsx:38-53 | odd ids get `left-4` and -15 degrees, the others `right-4` and 15; the label, its line mode, and the colours of the expanded and closed badge |
| MobileWorkItem.ImageSource | src/components/common/MobileWorkItem.jsx:23 | a truthy `mobileImage` wins; a falsy result is `src`; nothing only without `src` |
| MobileWorkItem.MobileWorkItemState.constructor | src/components/common/MobileWorkItem.jsx:4 | the card starts closed |
| MobileWorkItem.MobileWorkItemState.Tap | src/components/common/MobileWorkItem.jsx:7-13 | a tap flips the card exactly when the content has a truthy stylist, photographer or date |
| ContactFields.With | src/components/ContactForm.jsx:29-32 | an edit sets the named field to the value and leaves every other field as it was |
| ContactFields.AsValue | src/components/ContactForm.jsx:42 | the form reaches the validator as an object with exactly the four string members name, email, reason and message |
| ContactForm.KeyOf | src/components/ContactForm.jsx:17-22 | an edited field's error key is never the general one |
| ContactForm.Route | src/components/ContactForm.jsx:47-52 | a message goes to name exactly when it contains `Name`, to general exactly when it contains none of `Name`, `Email` and `Message`, and never to reason |
| ContactForm.FieldErrorsLast | src/components/ContactForm.jsx:46-52 | a key has an entry exactly when some message routes to it, and the entry is the last such message |
| ContactForm.MapErrors | src/components/ContactForm.jsx:46-52 | the `forEach` loop builds the field-error map of the messages, later messages overwriting earlier ones |
| ContactForm.NameRequiredRouted | src/components/ContactForm.jsx:48 | the name-required message lands on name |
| ContactForm.NameTooShortRouted | src/components/ContactForm.jsx:48 | the name-too-short message lands on name |
| ContactForm.NameTooLongRouted | src/components/ContactForm.jsx:48 | the name-too-long message lands on name |
| ContactForm.EmailRequiredRouted | src/components/ContactForm.jsx:49 | the email-required message lands on email |
| ContactForm.MessageRequiredRouted | src/components/ContactForm.jsx:50 | the message-required message lands on message |
| ContactForm.MessageTooShortRouted | src/components/ContactForm.jsx:50 | the message-too-short message lands on message |
| ContactForm.MessageTooLongRouted | src/components/ContactForm.jsx:50 | the message-too-long message lands on message |
| ContactForm.EmailInvalidRouted | src/components/ContactForm.jsx:49-51 | 'Please enter a valid email address' has no capital `Email` and lands on general |
| ContactForm.CompanyTooLongRouted | src/components/ContactForm.jsx:48-51 | the company-too-long message lands on general |
| ContactForm.RouteOfMessage | src/components/ContactForm.jsx:47-52 | every message of the validator lands on its fixed destination |
| ContactForm.RoutedIff | src/components/ContactForm.jsx:46-52 | a key has an entry exactly when one of the validator's errors is destined for it |
| ContactForm.Slots | src/components/ContactForm.jsx:46-52 | from the name, email and message checks, the keys that receive a message are exactly the filled slots |
| ContactForm.CheckDestinations | src/utils/validation.js:80-106 | the name checks only produce name messages, the message checks only message messages, and the email check only the two email messages |
| ContactForm.MessagesPlaced | src/components/ContactForm.jsx:44-52 | for data with no company error, a key receives a message exactly when its check failed: name, email-required on email, message, and the invalid address on general |
| ContactForm.FormMessagesPlaced | src/components/ContactForm.jsx:44-54 | for a failing form, the stored error keys are exactly the failed checks' slots, never reason |
| ContactForm.FormChecked | src/components/ContactForm.jsx:42-54 | the form has no company member, so no company error; it fails exactly when the validator lists an error |
| ContactForm.FormFailsIff | src/components/ContactForm.jsx:42-44 | the form passes exactly when the name, email and message checks all pass |
| ContactForm.Shown | src/components/ContactForm.jsx:54 | the stored errors hold exactly the mapped keys, each with its message |
| ContactForm.Check | src/components/ContactForm.jsx:42-52 | the validation step yields the routed field errors of the form, none for a valid one |
| ContactForm.ContactFormState.constructor | src/components/ContactForm.jsx:5-14 | empty fields, no errors, not submitting, no status |
| ContactForm.ContactFormState.Change | src/components/ContactForm.jsx:16-33 | an edit updates only its field, clears that field's error when it had one, clears the status and keeps the submitting flag |
| ContactForm.ContactFormState.Conclude | src/components/ContactForm.jsx:44-92 | invalid data sends nothing and shows the errors; otherwise the form is sent, success empties it and sets `success`, failure sets `error` with the general message; submitting is false afterwards |
| ContactForm.ContactFormState.Submit | src/components/ContactForm.jsx:35-93 | the whole submit, in terms of the routed errors of the form it started with |
| ContactPage.Validate | src/pages/contact-dynamic.jsx:40-62 | name and message fail exactly when blank after trim, reason exactly when empty; email gets 'Email is required' when blank and 'Please enter a valid email' when it fails `\S+@\S+\.\S+`; each message sits under its own field |
| ContactPage.ContactPageState.constructor | src/pages/contact-dynamic.jsx:8-19 | empty form, no errors, not submitting, not submitted, no error animation |
| ContactPage.ContactPageState.InputChange | src/pages/contact-dynamic.jsx:24-38 | an edit updates only the named field and clears only that field's message |
| ContactPage.ContactPageState.Submit | src/pages/contact-dynamic.jsx:64-120 | any message means nothing sent, the messages stored and the error animation on; otherwise the form is sent, and only `ok` with `success` marks it submitted and empties the form; submitting is false afterwards |
| ContactPage.ContactPageState.ErrorAnimationEnd | src/pages/contact-dynamic.jsx:77-79 | the 600 ms timer ends the error animation and changes nothing else |
| ContactPage.EmptyFormFails | src/pages/contact-dynamic.jsx:98-104 | the emptied form fails all four checks, the email one with 'Email is required' |
| ContactPage.MalformedRejectedByEndpoint | src/pages/contact-dynamic.jsx:49-50 | an address the page calls malformed is also refused by the contact endpoint's pattern |
| ContactPage.ValidIff | src/pages/contact-dynamic.jsx:40-62 | the form passes exactly when name, email and message have a non-space character, the address has the shape `x@y.z` and a reason is chosen |
| ContactValidation.ValidEmailShape | src/utils/validation.js:124-127 | an address the validator accepts is, once trimmed and lower-cased, of the shape `x@y.z` and has at most one `@` |
| ContactValidation.LengthCheck | src/utils/validation.js:84-90 | a field passes exactly when it is a string whose trimmed length in UTF-16 code units lies within the bounds; the required message comes exactly when the field is absent, not a string or blank, and every failure is one of the three messages |
| ContactValidation.EmailCheck | src/utils/validation.js:93-97 | the address passes exactly when it is a non-blank string the address pattern accepts; a missing, non-string or blank one is required, any other failure is the invalid-address message |
| ContactValidation.CompanyCheck | src/utils/validation.js:109-111 | the optional company fails exactly when it is a string whose trimmed length exceeds 200 UTF-16 code units, and then with the too-long message |
| ContactValidation.ContactCheck | src/utils/validation.js:80-117 | reading fields of `null` throws, and any other value gets a verdict that is valid exactly when its error list is empty |
| ContactValidation.ValidateContactData | src/utils/validation.js:80-117 | the step-by-step validator pushes exactly the messages the check specifies and answers the same verdict |
| ContactValidation.PushLengthError | src/utils/validation.js:84-90 | the name and message blocks append the failing check's message, or nothing |
| ContactValidation.PushEmailError | src/utils/validation.js:93-97 | the email block appends the email check's message, or nothing |
| ContactValidation.PushCompanyError | src/utils/validation.js:109-111 | the company block appends the too-long message, or nothing |
| ContactValidation.ContactValidIff | src/utils/validation.js:80-117 | contact data is valid exactly when the trimmed name has 2 to 100 UTF-16 code units, the address is a non-blank string the pattern accepts, the trimmed message has 10 to 2000 code units and no company string longer than 200 code units is given |
| ContactValidation.ContactMessage | src/utils/validation.js:80-117 | a message is in the answer exactly when the check of its own field yields it |
| ContactValidation.ContactInOrder | src/utils/validation.js:80-117 | the messages come in the field order name, email, message, company, at most one per field |
| Patterns.SimpleEmailIsLoose | src/pages/contact-dynamic.jsx:49 | every address the anchored pattern accepts the page's unanchored pattern accepts too |
| Patterns.SimpleEmailOneAt | src/utils/validation.js:125 | an address of the anchored pattern holds no two `@` characters |
| Patterns.PlainUriAccepted | src/middleware/validation.js:8 | a scheme of letters, a `:` and URI characters other than `%` and `#` pass the URI rule |
| Patterns.BadEscapeRefused | src/middleware/validation.js:8 | a `%` not followed by two hexadecimal digits after the scheme fails the URI rule |
| Patterns.SecondFragmentRefused | src/middleware/validation.js:8 | a URI with a second `#` fails the URI rule |
| Verdicts.FilledTextTrim | src/utils/validation.js:84 | the "present, a string and not blank" test holds exactly for strings whose trimmed text is non-empty |
| ContactHandler.CorsHeadersSet | api/contact.js:4-20 | after the CORS step each of the three headers has its value and every other header is as it was |
| ContactHandler.SetCorsHeaders | api/contact.js:18-20 | setting the headers one by one leaves the response with the three CORS headers added to those it had |
| ContactHandler.Respond | api/contact.js:23-236 | a preflight is answered OK exactly for `OPTIONS`, 405 exactly for a method that is neither `OPTIONS` nor `POST`, and 500 exactly for a POST whose body cannot be read |
| ContactHandler.Handle | api/contact.js:10-237 | the handler sets the CORS headers before anything else and answers what the response function specifies |
| ContactHandler.MissingFields | api/contact.js:50-56 | the step-by-step list of missing fields equals the specified one |
| ContactHandler.MailFailure | api/contact.js:170-197 | a mail failure is classified exactly when sending fails; an `EAUTH` code or response code 535 is an authentication failure, and the generic text comes exactly when no known code matches |
| ContactHandler.MissingIff | api/contact.js:50-56 | a field is listed as missing exactly when its value is falsy |
| ContactHandler.ListedInOrder | api/contact.js:51-55 | the missing fields are listed in the order name, email, reason, message |
| ContactHandler.MissingAnswered | api/contact.js:50-63 | a POST lacking any field gets 400 with exactly the falsy fields, in order |
| ContactHandler.SubmissionAnswered | api/contact.js:65-214 | a POST with all fields gets the received answer with its timestamp when the address has the shape `x@y.z`, and the invalid-address 400 otherwise, whatever the mail transport does |
| Carousel.Rem | src/hooks/useCarousel.js:18 | the remainder by the number of slides is NaN exactly when there are no slides, lies strictly between minus that number and that number, and for an index up to twice the count is the wrapped index |
| Carousel.CarouselState.constructor | src/hooks/useCarousel.js:3-11 | the carousel starts at slide 0 with `autoPlay` and `loop` on unless the options set them |
| Carousel.CarouselState.GoToNext | src/hooks/useCarousel.js:24-30 | the next button moves the index as the next-slide rule says and keeps the state valid |
| Carousel.CarouselState.GoToPrevious | src/hooks/useCarousel.js:32-38 | the previous button moves the index as the previous-slide rule says and keeps the state valid |
| Carousel.CarouselState.GoToSlide | src/hooks/useCarousel.js:40-44 | a dot sets the index as the slide rule says and keeps the state valid |
| Carousel.CarouselState.AutoPlayStep | src/hooks/useCarousel.js:14-22 | an interval tick moves the index as the tick rule says and keeps the state valid |
| Carousel.CarouselState.IsFirst | src/hooks/useCarousel.js:46 | the carousel reports its first slide only when the index is in range or there are no slides |
| Carousel.CarouselState.IsLast | src/hooks/useCarousel.js:47 | the carousel reports its last slide only when the index is in range, given a slide exists |
| Carousel.NextInRange | src/hooks/useCarousel.js:24-30 | with at least one slide, the next button keeps an in-range index in range, looping or not |
| Carousel.PreviousInRange | src/hooks/useCarousel.js:32-38 | with at least one slide, the previous button keeps an in-range index in range, looping or not |
| Carousel.LoopRoundTrip | src/hooks/useCarousel.js:24-38 | when looping, next then previous and previous then next both return to the slide they started from |
| Carousel.LoopWraps | src/hooks/useCarousel.js:26-34 | when looping, next from the last slide gives the first and previous from the first gives the last |
| Carousel.Clamped | src/hooks/useCarousel.js:28-36 | without looping, next stops at the last slide and previous at the first; otherwise they move by one |
| Carousel.TickMoves | src/hooks/useCarousel.js:14-19 | a tick moves the index exactly when auto-play is on and there are at least two slides, and then moves it like a looping next |
| Carousel.SlideIff | src/hooks/useCarousel.js:40-44 | a dot sets the index exactly when it names an existing slide and is ignored otherwise |
| Carousel.EmptyGivesNaN | src/hooks/useCarousel.js:24-38 | with no slides the looping buttons give NaN, while the clamped next gives -1 and the clamped previous 0 |
| WorkData.Derive | src/hooks/useWorkData.js:54-65 | the home projects are exactly those with id at most 6 that are not music videos, the work-page projects exactly those with id at least 7, and the featured projects are the home projects |
| WorkData.Partition | src/hooks/useWorkData.js:54-62 | no project is on both pages, every non-music-video project whose id reads as a whole number is on one of them, and a music video is never on the home page and is on the work page exactly when its id reads as at least 7 |
| WorkData.NoNumberOnNeither | src/hooks/useWorkData.js:54-62 | a project whose id is missing or reads as NaN is on neither page |
| WorkData.GapOnNeither | src/hooks/useWorkData.js:54-62 | a project whose id reads as a number strictly between 6 and 7 is on neither page |
| WorkData.NullIdOnHome | src/hooks/useWorkData.js:54-62 | a project with a `null` id reads as 0 and is on the home page unless it is a music video |
| WorkData.DeriveAppend | src/hooks/useWorkData.js:54-62 | both partitions keep the document's order: the partitions of a concatenation are the concatenations of the partitions |
| WorkData.Or | src/hooks/useWorkData.js:33-41 | the `or` fallback takes a truthy first operand and is truthy whenever the fallback is |
| WorkData.Loaded | src/hooks/useWorkData.js:27-42 | reading a document without a banner throws; otherwise the result has exactly the banner, section banners and projects, the banner keeps every member of the document's banner but `transform`, and `transform`, section banners and projects are all truthy |
| WorkData.LoadedIdempotent | src/hooks/useWorkData.js:30-42 | reshaping a reshaped document changes nothing |
| WorkData.LoadedKeeps | src/hooks/useWorkData.js:33-41 | a present transform and projects are kept; missing ones are replaced by the default transform and the empty list |
| WorkData.InitialIsLoaded | src/hooks/useWorkData.js:4-19 | the initial document already has the reshaped form |
| WorkData.WorkDataHook.constructor | src/hooks/useWorkData.js:4-21 | the hook starts loading, without an error, on the initial document |
| WorkData.WorkDataHook.Receive | src/hooks/useWorkData.js:23-49 | a fetched document that can be reshaped replaces the state; a failed fetch or a document without a banner keeps the old document and records an error; loading ends either way |
| WorkGallery.FilterMap | src/components/WorkGallery.jsx:8-14 | exactly the five filter names have an entry, each mapping to itself except `LIVE PERFORMANCE`, which maps to `LIVE` |
| WorkGallery.RawFiltered | src/components/WorkGallery.jsx:17-26 | a project is kept exactly when it is not a music video and matches the filter or its mapped category |
| WorkGallery.Position | src/components/WorkGallery.jsx:29-66 | each project keeps its place, sits 425 pixels per row lower than the one before, is centred exactly when it asks to be, and has the column and offset its alternation gives |
| WorkGallery.Gallery | src/components/WorkGallery.jsx:37-39 | the gallery places every project of the unfiltered list under `ALL MEDIA` and every filtered project otherwise |
| WorkGallery.ScrollTarget | src/components/WorkGallery.jsx:229-241 | there is no target exactly when no shown project has the category, and otherwise the target is the id of the first one that does |
| WorkGallery.FilteredShown | src/components/WorkGallery.jsx:17-39 | under a filter a project is shown exactly when it is in the list, is not a music video and matches the filter |
| WorkGallery.AllMediaShowsAll | src/components/WorkGallery.jsx:21-39 | under `ALL MEDIA` every project is shown, music videos included, in list order |
| WorkGallery.Alternates | src/components/WorkGallery.jsx:44-54 | of two non-centred projects with only centred ones between them, one goes left and the other right, at offsets 50 and 750 |
| WorkGallery.FirstGoesLeft | src/components/WorkGallery.jsx:48-54 | the first non-centred project goes to the left column at offset 50 |
| WorkGallery.HeightBounds | src/components/WorkGallery.jsx:69-80 | an empty gallery has its fixed height; otherwise the least height is 425 pixels per project after the first plus 400, and the greatest is 100 more |
| WorkGallery.ScrollTargetFirst | src/components/WorkGallery.jsx:231 | when some shown project has the category, the target is a project of that category at or before it |
| WorkPage.Selected | src/pages/work.jsx:15-24 | `ALL MEDIA` selects the work-page projects; any other filter selects exactly the projects of either list whose category is the filter, or `LIVE` for `LIVE PERFORMANCE` |
| WorkPage.CategoryFilter | src/pages/work.jsx:27-33 | the five gallery categories have a filter, the same name except that `LIVE` becomes `LIVE PERFORMANCE` |
| WorkPage.WorkPageState.constructor | src/pages/work.jsx:11 | the page starts with `ALL MEDIA` |
| WorkPage.WorkPageState.ReadUrl | src/pages/work.jsx:37-43 | a non-empty `filter` parameter becomes the active filter; a missing or empty one changes nothing |
| WorkPage.WorkPageState.ChangeFilter | src/pages/work.jsx:45-47 | the filter bar sets the active filter |
| WorkPage.WorkPageState.ClickCategory | src/pages/work.jsx:49-52 | a clicked category sets the filter the category maps to, or the category itself |
| WorkPage.WorkPageState.Shown | src/pages/work.jsx:18-24 | under `ALL MEDIA` the page hands the gallery the work-page projects |
| WorkPage.ClickedFilterIs | src/pages/work.jsx:49-52 | a click on `LIVE` selects `LIVE PERFORMANCE` and any other category selects itself |
| WorkPage.ClickShowsCategory | src/pages/work.jsx:15-52 | after a click on a category every listed project of that category is shown, and a shown project of another category can only be a `LIVE` one shown for `LIVE PERFORMANCE` or the reverse |
| WorkPage.MusicVideosFromWorkPage | src/pages/work.jsx:15-24 | the music-video filter shows only work-page projects, since the home list has none |
| WorkPage.SelectedOrder | src/pages/work.jsx:15-24 | a filter lists the matching home projects first and then the matching work-page projects, each in their order |
| Http.Response.SetHeader | src/middleware/errorHandler.js:314 | setting a header gives it the value and leaves every other header as it was |
| Http.Response.RemoveHeader | src/middleware/errorHandler.js:337 | removing a header drops it and leaves every other header as it was |
| Http.FinalStatus | server-old.js:96-105 | the status Express's final handler answers an error with, since no error middleware is mounted: the error's `status` when it is between 400 and 599, otherwise its `statusCode` when that is, otherwise 500 |
| Http.FinalHandler | server-old.js:96-105 | the final handler answers that status, with the error's stack outside production and the status text in production |
| AppErrors.StatusCode | src/middleware/errorHandler.js:7-42 | exactly the four error classes of the API carry a status code: 400 for a validation error, 404 for not found, 500 for the other two |
| ErrorHandler.SuccessBody | src/middleware/errorHandler.js:128-140 | the success envelope has `success` true, the message and the timestamp, and `data` exactly when the data is not `null`, and nothing else |
| ErrorHandler.ErrorBody | src/middleware/errorHandler.js:145-164 | the error envelope carries the message or `Internal server error`, the code or `INTERNAL_ERROR`, the details exactly when they are an array, and the stack exactly outside production when the error has one |
| ErrorHandler.HandleError | src/middleware/errorHandler.js:169-255 | every error gets an error envelope with status 400, 401, 403, 404 or 500; validation errors get 400, not-found 404, database and file errors 500, and in production a 500 shows neither its message nor a stack |
| ErrorHandler.HandleErrorTable | src/middleware/errorHandler.js:183-238 | the codes follow the table: the API errors keep their own code, token errors get 401 with `INVALID_TOKEN` or `TOKEN_EXPIRED`, a CORS refusal 403 with `CORS_ERROR`, and the upload limits 400 with `FILE_TOO_LARGE` or `UNEXPECTED_FILE` |
| ErrorHandler.UnknownErrorIsInternal | src/middleware/errorHandler.js:248-254 | any other error is a 500 `INTERNAL_ERROR` without a stack, whose message is the error's own only outside production |
| ErrorHandler.MalformedJsonIsBadRequest | src/middleware/errorHandler.js:240-246 | a body-parser syntax error is a 400 `INVALID_JSON` with the message `Invalid JSON format` |
| ErrorHandler.NotFoundHandler | src/middleware/errorHandler.js:269-274 | an unknown route gets 404 `ROUTE_NOT_FOUND` naming the method and the path |
| ErrorHandler.RequestGate | src/middleware/errorHandler.js:279-307 | a POST or PUT that is neither JSON nor multipart is refused for its content type, and otherwise a protected path without an `Authorization` header is refused for it |
| ErrorHandler.GateIgnoresCredentials | src/middleware/errorHandler.js:297-304 | the gate looks only at whether an `Authorization` header is present, never at its value |
| ErrorHandler.PublicNeverNeedsAuth | src/middleware/errorHandler.js:291-297 | public paths, public GET paths and paths outside `/api/` never need an `Authorization` header |
| ErrorHandler.JsonContentTypeAccepted | src/middleware/errorHandler.js:282 | a body of type `application/json` passes the content-type test |
| ErrorHandler.PlainMediaType | src/middleware/errorHandler.js:282 | a lower-case, trimmed type without parameters is its own media type |
| ErrorHandler.WorkWriteNeedsAuth | src/middleware/errorHandler.js:292-303 | a non-GET request to `/api/work` without an `Authorization` header is refused, since the work path is public only for GET |
| ErrorHandler.ValidateRequest | src/middleware/errorHandler.js:279-307 | the middleware calls the next one exactly when the gate passes, and otherwise answers 400 `INVALID_CONTENT_TYPE` or 401 `MISSING_AUTH_HEADER` in an envelope without a stack |
| ErrorHandler.SecuredHeaders | src/middleware/errorHandler.js:312-340 | the secured response never names the server with `X-Powered-By` |
| ErrorHandler.BasicHeadersSet | src/middleware/errorHandler.js:314-317 | the four basic security headers are always set to their values |
| ErrorHandler.SecuredNoSniff | src/middleware/errorHandler.js:314 | `X-Content-Type-Options` is always `nosniff` |
| ErrorHandler.SecuredFrameOptions | src/middleware/errorHandler.js:315 | `X-Frame-Options` is always `DENY` |
| ErrorHandler.SecuredXssProtection | src/middleware/errorHandler.js:316 | `X-XSS-Protection` is always set to its value |
| ErrorHandler.SecuredReferrerPolicy | src/middleware/errorHandler.js:317 | `Referrer-Policy` is always set to its value |
| ErrorHandler.BasicStageKeeps | src/middleware/errorHandler.js:314-317 | the basic stage leaves every other header as it was |
| ErrorHandler.ProductionStageKeeps | src/middleware/errorHandler.js:320-325 | the production stage changes nothing outside production and only its four headers in production |
| ErrorHandler.PolicyStageKeeps | src/middleware/errorHandler.js:328-334 | the policy stage changes only the content security policy, and only on admin paths |
| ErrorHandler.ProductionHeadersSet | src/middleware/errorHandler.js:320-325 | in production the four transport headers are set to their values |
| ErrorHandler.PolicyHeaderSet | src/middleware/errorHandler.js:328-334 | an admin path gets the production or the development content security policy |
| ErrorHandler.SecuredHeaderKept | src/middleware/errorHandler.js:312-340 | any header the middleware does not set or remove keeps its presence and its value |
| ErrorHandler.DevelopmentHeaders | src/middleware/errorHandler.js:320-334 | outside production none of the transport headers is added, and a policy is added exactly on admin paths |
| ErrorHandler.SecurityHeaders | src/middleware/errorHandler.js:312-340 | the middleware leaves the response with the secured headers and calls the next one |
| ErrorHandler.Sanitized | src/middleware/errorHandler.js:106-123 | a member is kept exactly when it is not `__proto__`, `constructor` or `prototype` and is not a function, with its value unchanged |
| ErrorHandler.SanitizedIdempotent | src/middleware/errorHandler.js:106-123 | sanitising twice is sanitising once |
| ErrorHandler.SanitizeJson | src/middleware/errorHandler.js:106-123 | on a JSON object sanitising only removes the three dangerous keys |
| ErrorHandler.SanitizeData | src/middleware/errorHandler.js:106-123 | the loop deletes exactly what the sanitised map leaves out, from the spread copy of the data |
| ErrorHandler.ValidateJsonStructure | src/middleware/errorHandler.js:91-104 | the check passes exactly for an object or array that has every expected key, throws `Invalid data: Expected object` for anything else, and otherwise names the first missing key |
| DocumentStore.Read | src/middleware/errorHandler.js:47-60 | a read succeeds exactly on a file holding JSON text and gives its value; a missing file is not-found, unparsable text a database error, anything else a file error |
| DocumentStore.Write | src/middleware/errorHandler.js:62-86 | a write succeeds exactly when the data serialises and the file is writable, stores the serialised data, backs up a readable previous file when the backup is writable, fails a value that does not serialise with a validation error before touching anything, and touches no other file |
| DocumentStore.Disk.constructor | src/middleware/errorHandler.js:47-86 | the disk starts with the given files |
| DocumentStore.Disk.SafeRead | src/middleware/errorHandler.js:47-60 | the safe read answers what the read specifies, and a success is a JSON value |
| DocumentStore.Disk.CopyFile | src/middleware/errorHandler.js:70 | a copy succeeds exactly when the source is readable and the target writable, and then only the target changes |
| DocumentStore.Disk.SafeWrite | src/middleware/errorHandler.js:62-86 | the safe write answers and changes the disk as the write specifies |
| DocumentStore.ReadAfterWrite | src/middleware/errorHandler.js:62-86 | the file of a successful write reads back as the serialised data, which is the data itself when it is JSON |
| DocumentStore.BackupKeepsPrevious | src/middleware/errorHandler.js:67-74 | after a successful write the backup reads back as the previous contents |
| DocumentStore.BackupNotFatal | src/middleware/errorHandler.js:69-77 | a backup that cannot be written does not stop the write: it still succeeds, and only the file changes |
| DocumentStore.WriteKeepsValid | src/middleware/errorHandler.js:62-86 | a write keeps every stored JSON text holding a JSON value |
| LegacyRoutes.WithId | server-old.js:195 | `{ ...body, id }` has the id and every other member of the spread body, and nothing else |
| LegacyRoutes.Keep | server-old.js:208 | the filter keeps exactly the items whose id differs from the parsed parameter, never grows the list, and changes nothing when no item has that id |
| LegacyRoutes.KeepAppend | server-old.js:208 | filtering keeps the order: the kept items of a concatenation are the concatenation of the kept items |
| LegacyRoutes.KeepCount | server-old.js:208 | the kept items and the removed ones add up to the whole list |
| LegacyRoutes.FindStep | server-old.js:302 | the search finds the first step with the id, reports none when no step has it, and throws only on a `null` met before any match |
| LegacyRoutes.FindStepFirst | server-old.js:302 | the search answers the first index whose step has the id |
| LegacyRoutes.Fetch | server-old.js:175-182 | a GET answers 500 exactly when the document cannot be read |
| LegacyRoutes.Stamped | server-old.js:262 | `{ ...body, updatedAt }` has the stamp and every other member of the spread body, and nothing else |
| LegacyRoutes.NewStep | server-old.js:278-282 | a new step has the spread body, the time as its id and the given order |
| LegacyRoutes.MissingDocumentFails | server-old.js:175-335 | a missing document makes every read and every change of that document answer the bare 500 and leaves the files as they were |
| LegacyRoutes.FetchServesStored | server-old.js:175-182 | a stored document is answered as it is when truthy, and the fallback is answered for a falsy one |
| LegacyRoutes.PushProjectStores | server-old.js:193-203 | appending a project answers it and stores the document with the project at the end of its list |
| LegacyRoutes.AddProjectAppends | server-old.js:193-203 | adding a project to a stored document, or to the default for a falsy one, answers the new project and stores the list with it appended |
| LegacyRoutes.RemoveProjectFilters | server-old.js:205-216 | deleting a project answers success and stores the document with exactly the projects of other ids, in order |
| LegacyRoutes.RemoveProjectFromNothing | server-old.js:205-216 | deleting from a falsy document or one without projects answers success and writes nothing |
| LegacyRoutes.AddFaqItemAppends | server-old.js:227-237 | adding a FAQ item answers it and stores the list with it appended |
| LegacyRoutes.RemoveFaqItemRewrites | server-old.js:239-248 | deleting a FAQ item answers success, stores the items of other ids and, when it can, keeps the previous list as the backup |
| LegacyRoutes.ReplaceStamped | server-old.js:260-269 | replacing a document stores the stamped body and answers success |
| LegacyRoutes.ReplaceWork | server-old.js:184-191 | replacing the work document stores the body as it is and answers success |
| LegacyRoutes.StoreStepsStores | server-old.js:285-288 | storing steps writes the document with those steps and the stamp |
| LegacyRoutes.AddStepNumbers | server-old.js:271-293 | a new step gets order one more than the number of steps, is answered, and is stored at the end with the stamp |
| LegacyRoutes.AddStepIsStore | server-old.js:271-293 | adding a step is storing the steps with the new one appended |
| LegacyRoutes.UpdateUnknownStep | server-old.js:302-307 | updating a step no step's id matches answers 404 and writes nothing |
| LegacyRoutes.UpdateKnownStep | server-old.js:295-317 | updating a known step replaces the first step with that id by the body with the id, stamps the document and answers success |
| LegacyRoutes.UpdateStepIsStore | server-old.js:295-317 | updating a known step is storing the steps with that one replaced |
| LegacyRoutes.RemoveStepFilters | server-old.js:319-335 | deleting a step stores exactly the steps of other ids, stamps the document and answers success |
| LegacyRoutes.FalsyProcessNotFound | server-old.js:271-335 | with a falsy process document every step route answers 404 and writes nothing |
| LegacyRoutes.ContentServer.constructor | server-old.js:118-124 | the server reads and writes the given disk |
| LegacyRoutes.ContentServer.GetDocument | server-old.js:175-182 | the GET routes answer as the fetch specifies |
| LegacyRoutes.ContentServer.PutWork | server-old.js:184-191 | the work PUT changes the disk and answers as replacing specifies |
| LegacyRoutes.ContentServer.PutDocument | server-old.js:260-269 | the document PUTs change the disk and answer as stamped replacing specifies |
| LegacyRoutes.ContentServer.PostWork | server-old.js:193-203 | the work POST changes the disk and answers as adding a project specifies |
| LegacyRoutes.ContentServer.DeleteWork | server-old.js:205-216 | the work DELETE changes the disk and answers as removing a project specifies |
| LegacyRoutes.ContentServer.PostFaq | server-old.js:227-237 | the FAQ POST changes the disk and answers as adding an item specifies |
| LegacyRoutes.ContentServer.DeleteFaq | server-old.js:239-248 | the FAQ DELETE changes the disk and answers as removing an item specifies |
| LegacyRoutes.ContentServer.PostStep | server-old.js:271-293 | the step POST changes the disk and answers as adding a step specifies |
| LegacyRoutes.ContentServer.PutStep | server-old.js:295-317 | the step PUT changes the disk and answers as updating a step specifies |
| LegacyRoutes.ContentServer.DeleteStep | server-old.js:319-335 | the step DELETE changes the disk and answers as removing a step specifies |
| ImageWalk.Child | server-old.js:367 | a child's relative path is its name, or the base, a slash and the name, with backslashes made slashes |
| ImageWalk.FolderLabel | server-old.js:379 | a file's folder is its base path, or `root` at the top |
| ImageWalk.Walk | server-old.js:361-388 | an unreadable directory lists nothing |
| ImageWalk.ListImages | server-old.js:361-388 | the recursive loop collects exactly the listing the walk specifies |
| ImageWalk.WalkSound | server-old.js:361-388 | every listed image has an image name, a URL under `/images/` and its folder |
| ImageWalk.ScanCount | server-old.js:365-382 | a directory lists at most as many images as it holds, and all of them when every file's details can be read |
| ImageWalk.ScanFindsTopLevel | server-old.js:372-380 | in such a directory every image file at its top level is listed with its details |
| ImageWalk.ScanAppend | server-old.js:365-382 | the first part of a directory is listed before the rest, and the rest is left out when a file of the first part cannot be read |
| ImageWalk.UnreadableSkipped | server-old.js:369-371 | an unreadable sub-directory adds nothing and stops nothing |
| ImageWalk.UnstatableStops | server-old.js:372-386 | an image whose details cannot be read ends the listing of its directory |
| ImageWalk.InfoValues | server-old.js:374-380 | each image becomes one JSON object, in order |
| ImageWalk.GetImages | server-old.js:351-359 | the image route answers 200 with the walk of the image directory |
| HeroRoutes.HeroFetch | server-old.js:165-168 | the hero GET sends the success envelope of the stored document exactly when it can be read, and otherwise passes the read's error on |
| HeroRoutes.HeroFetchFailures | server-old.js:165-168 | a failed hero read goes on to Express's final handler, since the central error handler is never mounted: a missing document ends as a 404 and an unparsable one as a 500, from the `statusCode` of their errors, with the stack page outside production |
| HeroRoutes.HeroFetchFailuresMounted | server-old.js:165-168 | once the central error handler is mounted, the same failures are a 404 and a 500 in its error envelope |
| HeroRoutes.HeroFetchNull | server-old.js:165-168 | a stored `null` is sent without a `data` member |
| HeroRoutes.HeroUpdate | server-old.js:170-173 | the hero PUT is the gated store with the hero schema's check of the body |
| HeroRoutes.Stored | server-old.js:171-172 | the store sends the saved envelope exactly when the write succeeds, and otherwise passes the write's error on |
| HeroRoutes.GatedRefusals | server-old.js:170 | authentication, the admin role, the id parameter and the schema are checked in that order, each refusal sent as its middleware answers it, and no refusal touches the files |
| HeroRoutes.GatedStores | server-old.js:170-173 | an admin's valid hero is saved and reads back as its serialised form |
| HeroRoutes.HeroUpdateRefusesInvalid | server-old.js:170 | a hero the schema refuses gets a 400 and the files stay as they were |
| HeroRoutes.HeroUpdateStores | server-old.js:170-173 | an admin's hero the schema accepts gets 200 and the checked value is what is stored |
| HeroRoutes.HeroServer.constructor | server-old.js:165-173 | the server reads and writes the given disk |
| HeroRoutes.HeroServer.GetHero | server-old.js:165-168 | the hero GET answers as the fetch specifies |
| HeroRoutes.HeroServer.PutHero | server-old.js:170-173 | the hero PUT changes the disk and answers as the update specifies |
| HeroRoutes.HeroServer.PutChecked | server-old.js:170-173 | the middleware chain with a schema sends and stores what the gated store specifies |
| Auth.Loaded | src/middleware/auth.js:54-62 | the stored users are loaded as they are, and an unreadable or missing file loads as no users |
| Auth.InitialUsers | src/middleware/auth.js:29-39 | a new users file holds exactly one user, id 1, the default administrator's name and address, role `admin`, never logged in |
| Auth.First | src/middleware/auth.js:161 | `find` answers the first matching user, or none when no user matches |
| Auth.Claims | src/middleware/auth.js:80-91 | a token carries exactly the user's id, name, address and role |
| Auth.TokenRoundTrip | src/middleware/auth.js:80-102 | with a sound token library, a token of a user whose id is `null`, a string or a whole number verifies to the user's claims with the issue and expiry times for 24 hours after it was issued, and then no longer |
| Auth.Profile | src/middleware/auth.js:187-194 | the user shown to a client has id, name, address, role and last login, and never the password hash |
| Auth.BearerToken | src/middleware/auth.js:108 | the token is a non-empty text read from the `Authorization` header, and there is none without that header |
| Auth.AuthCheck | src/middleware/auth.js:107-129 | a request without a token is refused as such; a request with one passes exactly when the token verifies to a truthy payload, which becomes the request's user, and is refused as invalid otherwise |
| Auth.RequireAuth | src/middleware/auth.js:107-129 | the middleware sets the request's user to the claims and calls the next one, or answers the refusal and leaves the user as it was |
| Auth.AdminCheck | src/middleware/auth.js:134-143 | the next handler runs exactly for a user whose role is `admin`, any other user is answered 403, and reading the role of no user throws |
| Auth.RequireAdmin | src/middleware/auth.js:134-143 | the middleware answers what the admin check specifies |
| Auth.BearerOfToken | src/middleware/auth.js:108 | a header `Bearer <token>` yields that token |
| Auth.TokenGrantsRole | src/middleware/auth.js:80-143 | a fresh token of a user whose id is `null`, a string or a whole number passes authentication, and passes the admin check exactly when the user is an administrator |
| Auth.LoginOutcome | src/middleware/auth.js:148-205 | login answers 200, 400, 401 or 500, saves the users exactly when it answers 200, and never adds or removes a user |
| Auth.LoginNeedsCredentials | src/middleware/auth.js:150-158 | a login without a username or a password is answered 400 and saves nothing |
| Auth.LoginRefusalsAlike | src/middleware/auth.js:161-178 | an unknown user and a wrong password get the same 401 and save nothing |
| Auth.LoginSucceeds | src/middleware/auth.js:160-196 | a successful login matched a user by name or address, saves that user with the new last login, and answers a token and the profile of that user |
| Auth.CurrentUserReply | src/middleware/auth.js:219-249 | the current-user route answers 200, 404 or 500, and 404 when there are no users |
| Auth.ChangeOutcome | src/middleware/auth.js:255-312 | a password change saves the users exactly when it answers success, and never adds or removes a user |
| Auth.ShortPasswordFirst | src/middleware/auth.js:266-272 | a new password shorter than 6 UTF-16 code units is refused before the users are even read |
| Auth.WrongCurrentRefused | src/middleware/auth.js:286-292 | a current password whose bcrypt key differs from the key of the user's password is refused with 401 and nothing is saved |
| Auth.ChangeSucceeds | src/middleware/auth.js:255-304 | a saved change had a new password of at least 6 UTF-16 code units and replaces exactly one user's hash, by a hash of that password, and update time |
| Auth.ChangedPasswordLogsIn | src/middleware/auth.js:148-304 | after a change the user logs in with the new password and is refused with the old one when the two have different bcrypt keys |
| Auth.RehashedLogsIn | src/middleware/auth.js:171-298 | a user whose hash is replaced logs in with the new password and no longer with an old one of a different bcrypt key |
| Auth.ChangedList | src/middleware/auth.js:295-301 | a change to a known user saves the list with only that user's hash and update time replaced |
| Auth.LoginAtIndex | src/middleware/auth.js:161-178 | a login that finds a user succeeds exactly when the password matches that user's hash, and is refused otherwise |
| Auth.SameLoginMatch | src/middleware/auth.js:161 | a list whose names and addresses are unchanged finds the same user |
| Auth.AccountStore.constructor | src/middleware/auth.js:17 | the store starts with the given users file |
| Auth.AccountStore.LoadUsers | src/middleware/auth.js:54-62 | loading answers the loaded users of the file |
| Auth.AccountStore.SaveUsers | src/middleware/auth.js:67-74 | saving replaces the file exactly when it is writable and reports whether it did |
| Auth.AccountStore.InitializeAuth | src/middleware/auth.js:22-49 | the initial users are written exactly when no users file exists and it can be written; an existing file is never touched |
| Auth.AccountStore.Login | src/middleware/auth.js:148-205 | the login handler answers and saves what the login outcome specifies |
| Auth.AccountStore.GetCurrentUser | src/middleware/auth.js:219-249 | the handler answers the current-user reply for the loaded users |
| Auth.AccountStore.ChangePassword | src/middleware/auth.js:255-312 | the handler answers and saves what the change outcome specifies |
| Auth.DefaultAdminLogsIn | src/middleware/auth.js:10-39 | the default administrator logs in with the default password |
| Auth.BcryptKey | src/middleware/auth.js:171 | bcrypt compares the 72-byte key of a password: its UTF-8 bytes and a terminating zero, repeated |
| Auth.BcryptKeyInjective | src/middleware/auth.js:171 | passwords without NUL that encode in fewer than 72 bytes have equal keys only when they are equal |
| Auth.LongPasswordsCollide | src/middleware/auth.js:171 | passwords that share their first 72 bytes have the same key, whatever follows |
| Auth.OwnHashMatches | src/middleware/auth.js:29-171 | with a sound hasher a password matches a hash made from it |
| AuthLibraries.SignVerifies | src/middleware/auth.js:80-102 | the token a witness library signs for a user with a JSON id reads back to the user's claims, stamped, until it expires |
| AuthLibraries.TokensSound | src/middleware/auth.js:80-102 | a sound token library exists: the witness library meets the token round trip the authentication layer relies on |
| AuthLibraries.HashTextIff | src/middleware/auth.js:171 | the witness hashes of two passwords are equal exactly when their bcrypt keys are |
| AuthLibraries.HasherSound | src/middleware/auth.js:29-295 | a sound password hasher exists: the witness hasher matches a candidate exactly when its bcrypt key is the password's |
| Unicode.Utf16Length | src/middleware/auth.js:267 | a string's `length` counts UTF-16 code units, at least one and at most two per character |
| Unicode.BasicPlaneLength | src/middleware/auth.js:267 | text without astral characters has as many code units as characters |
| Unicode.AstralLength | src/middleware/auth.js:267 | text of astral characters only counts two code units per character |
| Unicode.Utf16LengthAppend | src/utils/validation.js:84-111 | the code units of a concatenation are the sum of those of its parts |
| Unicode.CharBytesDecode | src/middleware/auth.js:171 | the lead byte of a character's UTF-8 encoding gives its length, and the encoding decodes to the character |
| Unicode.Utf8Injective | src/middleware/auth.js:171 | different strings have different UTF-8 encodings |
| Unicode.Utf8Append | src/middleware/auth.js:171 | the encoding of a concatenation is the concatenation of the encodings |
| Unicode.NoZeroByte | src/middleware/auth.js:171 | text without NUL encodes without a zero byte |
| Uploads.LastDot | server-old.js:136 | the last `.` of a name, or none |
| Uploads.Extname | server-old.js:136 | the extension is empty or a `.` followed by no further `.`, ends the base name and is shorter than it |
| Uploads.ExtnameOfName | server-old.js:136 | a name of the form `stem.ext` has extension `.ext` |
| Uploads.HiddenFileHasNoExtension | server-old.js:136 | a name starting with its only `.` has no extension |
| Uploads.StoredName | server-old.js:133-138 | the stored name starts with the field name and `_` and ends with the original extension |
| Uploads.StoredNameTail | server-old.js:137 | after the field name and `_` come the clock, `_`, the random number and the extension |
| Uploads.StoredNameInjective | server-old.js:133-138 | two stored names are equal only when clock, random number and extension are |
| Uploads.Accept | server-old.js:142-156 | a file is accepted exactly when it comes in the `image` field with an allowed type and a size within the 10 MiB limit, under the stored name; otherwise the field, the type and the size are refused in that order |
| Uploads.UploadedBody | server-old.js:342-348 | the answer has `success`, the URL under `/images/uploads/`, the stored and the original name and the size |
| Uploads.UploadRoute | server-old.js:337-340 | a request without a file is answered 400 |
| Uploads.UploadAcceptedIff | server-old.js:337-349 | the route answers 200 exactly for an accepted file, with its stored name and details |
| Uploads.UploadRefusals | server-old.js:142-156 | the route fails exactly when the filter refuses the file, and every refusal, for the field, the type or the size, ends as a 500 from Express's final handler, with the stack page outside production |
| Uploads.OversizedFileStatus | server-old.js:142-156 | a PNG in the `image` field one byte over the limit is a 500 as the server stands and a 400 once the central error handler is mounted |
| Uploads.UploadRefusalsMounted | server-old.js:142-156 | once the central error handler is mounted, a wrong field is a 400 `UNEXPECTED_FILE`, a refused type a 500 `INTERNAL_ERROR` and an oversized file a 400 `FILE_TOO_LARGE` |
| Schema.StringRuleErrors | src/middleware/validation.js:5-9 | a string's rules report nothing exactly when every rule holds, and each rule that fails is reported with its kind and the value |
| Schema.NumberRuleErrors | src/middleware/validation.js:10-16 | a number's rules report nothing exactly when every rule holds, and each rule that fails is reported with its kind and the number |
| Schema.UnknownKeys | src/middleware/validation.js:82 | the unknown keys of an object are exactly those the schema does not name |
| Schema.UnknownDetails | src/middleware/validation.js:82 | each unknown key is reported once, at its own path, with its value |
| Schema.Restrict | src/middleware/validation.js:309 | the kept part of an object has exactly the listed keys it holds, with their values |
| Schema.Validate | src/middleware/validation.js:306-310 | validation converts the value as the schema walk does and fails exactly when the walk reports something; without `abortEarly` every detail is reported, with it at most the first |
| Schema.Message | src/middleware/validation.js:313-316 | a detail's message starts with the quoted path of the field it is about |
| SchemaFacts.WalkSound | src/middleware/validation.js:306-310 | a value the schema walk reports nothing about converts to a value that conforms to the schema |
| SchemaFacts.WalkComplete | src/middleware/validation.js:306-310 | a conforming value passes the walk unchanged and without a report |
| SchemaFacts.ValidateIdempotent | src/middleware/validation.js:327-329 | the validated value of a passing request passes again unchanged, so replacing the body and validating again changes nothing |
| SchemaFacts.ValidateSound | src/middleware/validation.js:306-329 | a passing value is replaced by one that conforms to the schema |
| SchemaFacts.ValidateComplete | src/middleware/validation.js:306-329 | a conforming value passes and is kept as it is |
| SchemaFacts.MissingRequiredReported | src/middleware/validation.js:43 | a missing required key is reported as required at its own path |
| SchemaFacts.FieldErrorsReported | src/middleware/validation.js:41-82 | what a member's schema reports about the member is reported for the whole object |
| SchemaFacts.FieldConverted | src/middleware/validation.js:41-82 | a present member named by the schema is kept in the converted object |
| SchemaFacts.DefaultApplied | src/middleware/validation.js:44 | a missing member with a default gets the default in the converted object |
| SchemaFacts.UnknownKeyReported | src/middleware/validation.js:82 | an unknown key is reported when the schema forbids unknown keys, or when they are not stripped |
| SchemaFacts.UnknownKeyStripped | src/middleware/validation.js:309 | with stripping on, an unknown key of a schema that says nothing about unknown keys is dropped |
| SchemaFacts.ItemErrorsReported | src/middleware/validation.js:57-68 | what an item's schema reports about the item is reported for the whole array |
| SchemaFacts.ArrayMaxReported | src/middleware/validation.js:68 | an array longer than its maximum is reported as such |
| SchemaFacts.NotListedReported | src/middleware/validation.js:89 | a string outside the listed values is reported as unlisted first, carrying the converted string; then an empty one is reported as empty and a non-empty one gets exactly the string rules' reports |
| SchemaFacts.NotStringReported | src/middleware/validation.js:89 | a value that is not a string, checked against listed strings, is reported as unlisted and then as not a string, with nothing else |
| ResourceSchemas.KeysWellFormed | src/middleware/validation.js:13-18 | an object rule table with distinct keys, well-formed member rules and defaults that satisfy their own rules is well formed |
| ResourceSchemas.EmptyConformsOptionalText | src/middleware/validation.js:6 | the optional text rule allows the empty string |
| ResourceSchemas.TransformWellFormed | src/middleware/validation.js:13-18 | the transform table's defaults 1, 0, 0 and `false` satisfy its own bounds |
| ResourceSchemas.HeroDefaultsConform | src/middleware/validation.js:41-82 | every default of the hero table satisfies the rule of its member |
| ResourceSchemas.HeroWellFormed | src/middleware/validation.js:41-82 | the hero table is well formed |
| ResourceSchemas.WorkProjectWellFormed | src/middleware/validation.js:85-96 | the work-project table is well formed, its defaults satisfying their rules |
| ResourceSchemas.WorkWellFormed | src/middleware/validation.js:98-114 | the work table is well formed |
| ResourceSchemas.ProcessStepWellFormed | src/middleware/validation.js:117-125 | the process-step table is well formed |
| ResourceSchemas.ProcessWellFormed | src/middleware/validation.js:127-147 | the process table is well formed |
| ResourceSchemas.LocationWellFormed | src/middleware/validation.js:234-243 | the location table is well formed |
| ResourceSchemas.LocationsWellFormed | src/middleware/validation.js:245-255 | the locations table is well formed |
| ResourceSchemas.ContactWellFormed | src/middleware/validation.js:258-267 | the contact table is well formed |
| ResourceSchemas.GeneralConformsOptionalText | src/middleware/validation.js:274 | the FAQ item's default category `general` satisfies its rule |
| ResourceSchemas.FaqItemWellFormed | src/middleware/validation.js:270-276 | the FAQ item table is well formed |
| ResourceSchemas.FaqWellFormed | src/middleware/validation.js:278-292 | the FAQ table is well formed |
| ResourceSchemas.ImageUploadWellFormed | src/middleware/validation.js:295-299 | the upload metadata table is well formed |
| ResourceFacts.RequiredTextMeaning | src/middleware/validation.js:5 | a required text is a trimmed string of 1 to 1000 UTF-16 code units |
| ResourceFacts.IdMeaning | src/middleware/validation.js:4 | an id is a positive integer |
| ResourceFacts.YearMeaning | src/middleware/validation.js:10 | a year is an integer from 1900 to 2030 |
| ResourceFacts.ImagePathMeaning | src/middleware/validation.js:9 | an image path is empty or `/images/` followed by path characters and an image extension, in any case |
| ResourceFacts.CategoryMeaning | src/middleware/validation.js:89 | a category is one of the six listed names |
| ResourceFacts.HeroTextIndex | src/middleware/validation.js:43-46 | `title`, `atelierTitle` and `atelierDescription` are required texts of the hero table |
| ResourceFacts.HeroMissingTextReported | src/middleware/validation.js:43-46 | a hero without one of its three texts gets a required detail whose field is that key |
| ResourceFacts.RequiredMessage | src/middleware/validation.js:313-316 | the required detail of a top-level key reads `"<key>" is required` and names the key as its field |
| ResourceFacts.HeroAcceptedTexts | src/middleware/validation.js:43-46 | an accepted hero has each of its three texts trimmed and of 1 to 1000 UTF-16 code units |
| ResourceFacts.HeroUnknownKeyReported | src/middleware/validation.js:82 | an extra top-level hero key is reported even though unknown keys are otherwise stripped |
| ResourceFacts.HeroAcceptedKeys | src/middleware/validation.js:82 | an accepted hero has only the keys the table names |
| ResourceFacts.HeroAcceptedCaps | src/middleware/validation.js:57-76 | an accepted hero has at most 10 background images and at most 10 polaroids |
| ResourceFacts.ProjectCategoryReported | src/middleware/validation.js:89 | a project whose category is not one of the six is reported with the list of allowed values |
| ResourceFacts.ProjectAccepted | src/middleware/validation.js:85-96 | an accepted project has a listed category, a year from 1900 to 2030, an image path of the allowed form, and a positive integer id when it has one |
| ResourceFacts.DefaultFilled | src/middleware/validation.js:92-95 | a missing member with a default gets that default in the validated object |
| ResourceFacts.ProjectDefaults | src/middleware/validation.js:92-95 | a project without them gets `alt` and `description` empty, `featured` false and `order` 0 |
| ResourceFacts.ProjectUnknownKeyDropped | src/middleware/validation.js:85-96 | an unknown project key is dropped from the validated value |
| ResourceFacts.StepDefaultOrder | src/middleware/validation.js:124 | a step without an order gets order 0 |
| ResourceFacts.FaqItemDefaults | src/middleware/validation.js:274-275 | a FAQ item without them gets category `general` and order 0 |
| ResourceFacts.RequestReports | src/middleware/validation.js:306-310 | with every violation reported, each detail of the walk is in the answer |
| ResourceFacts.MissingRejected | src/middleware/validation.js:43 | a missing required member of any table is reported as required |
| ResourceFacts.UnknownRejected | src/middleware/validation.js:82 | an unknown key of a table that forbids unknown keys is reported |
| ResourceFacts.FieldRejected | src/middleware/validation.js:306-310 | what a member's rule reports about the member is in the answer for the document |
| ResourceFacts.OverCapReported | src/middleware/validation.js:68 | a collection longer than its cap is reported with the cap |
| ResourceFacts.ProjectsOverCapReported | src/middleware/validation.js:113 | more than 50 projects are reported |
| ResourceFacts.StepsOverCapReported | src/middleware/validation.js:146 | more than 20 steps are reported |
| ResourceFacts.FaqItemsOverCapReported | src/middleware/validation.js:289 | more than 50 FAQ items are reported |
| ResourceFacts.LocationsOverCapReported | src/middleware/validation.js:254 | more than 10 locations are reported |
| ResourceFacts.HeroImagesOverCapReported | src/middleware/validation.js:68-76 | more than 10 background images or polaroids are reported |
| ResourceFacts.AcceptedWithinCap | src/middleware/validation.js:68 | an accepted document's required collection is an array within its cap |
| ResourceFacts.WorkAcceptedCap | src/middleware/validation.js:113 | an accepted work document has at most 50 projects |
| ResourceFacts.ProcessAcceptedCap | src/middleware/validation.js:146 | an accepted process document has at most 20 steps |
| ResourceFacts.FaqAcceptedCap | src/middleware/validation.js:289 | an accepted FAQ document has at most 50 items |
| ResourceFacts.LocationsAcceptedCap | src/middleware/validation.js:254 | an accepted locations document has at most 10 locations |
| ValidationMiddleware.DetailEntries | src/middleware/validation.js:313-317 | each detail becomes one entry of the answer, in order |
| ValidationMiddleware.SchemaCheck | src/middleware/validation.js:304-331 | a request part passes exactly when validation reports nothing, and then becomes the validated value; a failure is a 400 |
| ValidationMiddleware.FailureDetails | src/middleware/validation.js:319-324 | the refusal carries `VALIDATION_ERROR` and the entries of every detail |
| ValidationMiddleware.DetailEntryFields | src/middleware/validation.js:313-317 | an entry has the detail's message, and a value exactly when the detail has one |
| ValidationMiddleware.EveryViolationReported | src/middleware/validation.js:306-324 | every violation the walk finds is refused with `VALIDATION_ERROR` and appears among the entries |
| ValidationMiddleware.SchemaCheckSound | src/middleware/validation.js:304-331 | a part that passes is replaced by a value that conforms to the table |
| ValidationMiddleware.SchemaCheckComplete | src/middleware/validation.js:304-331 | a conforming part passes unchanged |
| ValidationMiddleware.SchemaCheckIdempotent | src/middleware/validation.js:327-329 | checking the replaced part again passes with the same value |
| ValidationMiddleware.ValidateSchema | src/middleware/validation.js:304-331 | the middleware answers the refusal and changes nothing, or replaces exactly the checked part and calls the next one |
| ValidationMiddleware.HeroMissingTextRejected | src/middleware/validation.js:43-46 | a hero without one of its texts is refused with the entry `{ field: key, message: "key" is required }` |
| ValidationMiddleware.HeroExtraKeyRejected | src/middleware/validation.js:82 | a hero with an extra key is refused and the key's entry is reported |
| ValidationMiddleware.ProjectCategoryRejected | src/middleware/validation.js:89 | a project with an unlisted category is refused and the category's entry is reported |
| ValidationMiddleware.FileCheck | src/middleware/validation.js:336-360 | no file is refused as `NO_FILE`; a file passes exactly when its metadata validates, and every refusal is a 400 |
| ValidationMiddleware.UploadMeaning | src/middleware/validation.js:295-299 | upload metadata passes exactly when the type is one of the five image types, the size is at most 10485760 and the name has only letters, digits, `_`, `-` and `.` |
| ValidationMiddleware.AcceptableUploadPasses | src/middleware/validation.js:295-299 | acceptable metadata passes the upload table |
| ValidationMiddleware.UploadAcceptedFields | src/middleware/validation.js:295-299 | metadata the upload table passes is acceptable |
| ValidationMiddleware.ValidateFileUpload | src/middleware/validation.js:336-360 | the middleware answers the file check's refusal or calls the next one |
| ValidationMiddleware.IdParamCheck | src/middleware/validation.js:365-378 | a failed id check is refused as `INVALID_ID`, and parameters without an id pass unchanged |
| ValidationMiddleware.IdParamAccepted | src/middleware/validation.js:365-378 | an accepted id is converted to a positive integer and the other parameters are kept |
| ValidationMiddleware.IdParamOfText | src/middleware/validation.js:366-376 | a decimal text of a positive number is converted to that number |
| ValidationMiddleware.IdParamNumberRejected | src/middleware/validation.js:366-374 | a number that is not a positive integer is refused |
| ValidationMiddleware.IdParamTextRejected | src/middleware/validation.js:366-374 | a text that does not read as a number is refused |
| ValidationMiddleware.ValidateIdParam | src/middleware/validation.js:365-378 | the middleware answers the refusal and leaves the parameters, or stores the converted parameters and calls the next one |
| LocationValidation.MessageInjective | src/utils/validation.js:17-49 | the seven messages are pairwise different texts |
| LocationValidation.MessageLength | src/utils/validation.js:17-49 | each message has the length of the text the check pushes |
| Verdicts.Texts | src/utils/validation.js:51-54 | the reported `errors` are the texts of the failed checks, one for one and in order |
| Verdicts.PushIf | src/utils/validation.js:17-19 | a failing check appends its message at the end and a passing one appends nothing |
| LocationValidation.FilledLinesKeep | src/utils/validation.js:36 | the kept address lines are the lines whose trimmed text is not empty |
| LocationValidation.LocationCheck | src/utils/validation.js:13-55 | the check throws exactly on a `null` record or a truthy address that is not a string; otherwise `isValid` holds exactly when no message was pushed |
| LocationValidation.ValidateLocationData | src/utils/validation.js:13-55 | the seven checks run in order and the method answers what the record check defines |
| LocationValidation.LocationValidIff | src/utils/validation.js:13-55 | a record is valid exactly when name, address, image path and alt are non-blank strings, the address has at least two non-blank lines and the link is a Google Maps link with a `q` parameter |
| LocationValidation.LocationMessage | src/utils/validation.js:17-49 | a message is reported exactly when its check fails |
| LocationValidation.LocationInOrder | src/utils/validation.js:17-49 | the messages appear in the order the checks run, each at most once |
| LocationValidation.LocationErrorBound | src/utils/validation.js:13-55 | a record gets at most seven messages |
| LocationValidation.OneLineAddress | src/utils/validation.js:35-39 | a non-blank address without a line break is refused as too short |
| LocationValidation.JoinedArrayLink | src/utils/validation.js:30 | an array of a Google Maps link and another text is judged by its comma-joined text, and passes |
| MapsUrl.DropLeading | src/utils/validation.js:64 | the URL parser drops the leading C0 controls and spaces, keeping a suffix of the input |
| MapsUrl.DropTrailingSpace | src/utils/validation.js:64 | the URL parser drops the trailing C0 controls and spaces, keeping a prefix of the input |
| MapsUrl.DropTabs | src/utils/validation.js:64 | the URL parser removes every tab and newline, and leaves a text without any unchanged |
| MapsUrl.SchemeRun | src/utils/validation.js:64 | the scheme is the longest run of scheme characters |
| MapsUrl.SchemeEnd | src/utils/validation.js:64 | a scheme starts with a letter and ends at a colon |
| MapsUrl.AuthorityEnd | src/utils/validation.js:64 | the host part ends at the first slash, `?` or `#` |
| MapsUrl.BeforeFirst | src/utils/validation.js:64 | the prefix before the first occurrence of a character |
| MapsUrl.ParseUrl | src/utils/validation.js:64 | an absolute URL of a network scheme parses only with a non-empty host name |
| MapsUrl.PlusAsSpace | src/utils/validation.js:65 | query names read `+` as a space, before they are percent-decoded |
| MapsUrl.HttpsLink | src/utils/validation.js:62-69 | `https://<host>/?<query>` is a Google Maps link exactly when the host, percent-decoded and lower-cased, is `maps.google.com` and some parameter's name, with `+` as a space and percent-decoded, is `q` |
| MapsUrl.NoSchemeRejected | src/utils/validation.js:66-67 | a text without a colon does not parse, so the check answers false instead of throwing |
| MapsUrl.HttpsLinkParses | src/utils/validation.js:64 | `https://<host>/?<query>` parses into that scheme, the decoded and lower-cased host, and the query, and fails to parse when the decoded host holds a forbidden domain code point |
| MapsUrl.DomainOf | src/utils/validation.js:64 | a special-scheme host is accepted exactly when its percent-decoded text has no forbidden domain code point, and is then that text lower-cased |
| MapsUrl.OpaqueHostOf | src/utils/validation.js:64 | a host of another scheme is accepted exactly when it has no forbidden host code point, and is kept as written |
| MapsUrl.HostOfPlain | src/utils/validation.js:64 | a host without `@`, `:` or separators is read as its domain |
| MapsUrl.PlainDomain | src/utils/validation.js:64 | a host without forbidden code points, upper-case letters or escapes is its own domain |
| MapsUrl.NoEscapeKept | src/utils/validation.js:64 | percent-decoding leaves a text without `%` unchanged |
| MapsUrl.EscapeDecoded | src/utils/validation.js:64 | an escape of two hexadecimal digits decodes to the character they number |
| MapsUrl.EncodedHost | src/utils/validation.js:64-65 | the host `Maps.Google.%63om` is read as `maps.google.com` |
| MapsUrl.EncodedName | src/utils/validation.js:65 | a query parameter named `%71` counts as `q` |
| LocationConsistency.StrictEqualsKeyable | src/utils/validation.js:141 | a `Set` finds a value again exactly when it is `undefined` or a primitive equal to one added |
| LocationConsistency.Column | src/utils/validation.js:139-141 | the column of one property across the records, position for position |
| LocationConsistency.CheckThrows | src/utils/validation.js:155 | a record's own check throws exactly on `null` or a truthy address that is not a string |
| LocationConsistency.RepeatsIff | src/utils/validation.js:141-151 | a name or link is a repeat exactly when an earlier record holds the same findable value |
| LocationConsistency.ValidateLocationConsistency | src/utils/validation.js:134-165 | the loop over the records, with its two `Set`s, answers what the consistency check defines |
| LocationConsistency.Findings | src/utils/validation.js:154-158 | the pass throws on a record exactly when its own check throws; otherwise the record adds its duplicate messages, then a summary when it is invalid |
| LocationConsistency.LookUp | src/utils/validation.js:141-151 | `has` answers whether the findable key was added before, and `add` adds it |
| LocationConsistency.DuplicatesFlagged | src/utils/validation.js:141-151 | a record is reported as a duplicate name or link exactly when an earlier record has the same findable value |
| LocationConsistency.ConsistencyThrows | src/utils/validation.js:155 | the whole check throws exactly when some record's own check throws |
| LocationConsistency.ConsistencySummaries | src/utils/validation.js:156-164 | there is one summary per invalid record, and `isValid` holds exactly when no message was pushed |
| LocationConsistency.DuplicateNameText | src/utils/validation.js:142 | the duplicate-name message starts with `Duplicate location name "<name>"` |
| JsValue.Normalize | src/middleware/errorHandler.js:65 | JSON text of a value without functions or big integers is JSON again, and a JSON value is its own text |
| JsValue.Stringify | src/middleware/errorHandler.js:65 | stringifying fails exactly on a top-level function or a big integer anywhere, and otherwise gives JSON |
| JsValue.StringifyOfJson | src/middleware/errorHandler.js:50-65 | a JSON value written and read back is the same value |
| JsValue.Prop | server-old.js:196 | a property is present exactly when the value is an object holding the key |
| JsValue.Spread | server-old.js:196 | spreading an object copies its members, and spreading a primitive other than a string adds nothing |
| JsValue.IndexMap | src/middleware/errorHandler.js:108 | spreading an array gives its elements under the decimal texts of their indices, and nothing else |
| JsValue.Length | src/middleware/auth.js:267 | `length` is the count of UTF-16 code units of a string, at least its count of characters, or of elements of an array, and absent otherwise |
| JsValue.ToNumber | src/hooks/useWorkData.js:56-61 | the number a comparison reads a value as: a number itself, `null` as 0, nothing for a missing value, and NaN for an object or a function |
| JsValue.StringNumber | src/hooks/useWorkData.js:56-61 | a blank string reads as 0 and any other as its decimal value |
| JsValueFacts.ParseIntOfNatText | server-old.js:209 | `parseInt` reads the decimal text of a natural number as that number |
| JsValueFacts.ParseIntOfIntText | server-old.js:302 | `parseInt` reads the decimal text of any integer, negative ones included, as that integer |
| JsValueFacts.DecimalValueOfNatText | src/middleware/validation.js:365-378 | the number conversion reads the decimal text of a natural number as that number |
| Strings.Trim | src/middleware/validation.js:5 | `trim()` leaves no white space at either end and never lengthens the text |
| Strings.TrimIdempotent | src/middleware/validation.js:5 | trimming twice changes nothing more |
| Strings.TrimEmptyIff | src/utils/validation.js:17 | a trim is empty exactly when the text is all white space |
| Strings.ReplaceFirst | src/middleware/auth.js:108 | `replace` with a text pattern changes only its first occurrence, and nothing when it does not occur |
| Strings.Lower | src/utils/validation.js:126 | `toLowerCase()` keeps the length and maps each character to its lower-case form |
| Strings.RemoveSpaces | src/pages/contact-dynamic.jsx:49 | removing white space leaves a text without any and never lengthens it |
| Strings.Split | src/utils/validation.js:36 | `split` gives pieces free of the separator that join back to the text |
| Sequences.Filter | server-old.js:209 | `filter` keeps, in order, exactly the elements that pass |

## Findings

| source | as written | input that shows it | evidently intended | confidence | as-written member | corrected member |
|---|---|---|---|---|---|---|
| server-old.js:40 | `errorHandler` is imported but never passed to `app.use`, so multer's errors reach Express's final handler | an `image` upload of type `image/png` one byte over the 10 MiB limit is answered 500 instead of 400 `FILE_TOO_LARGE` | the central handler mounted after the routes, so upload and database errors get their own status and code in the error envelope | not executed | Uploads.OversizedFileStatus | Uploads.UploadRefusalsMounted |

## Left out

- Token signing and verification, and password hashing and comparison, are foreign libraries. They are parameters of the model. The round trip they promise is stated by `Auth.SoundTokens` and `Auth.SoundHasher`, required by the lemmas that need it. The witnesses in `AuthLibraries` show that both can be met. They are not jsonwebtoken or bcryptjs: no signature, no base64url and no Blowfish rounds.
- The real filesystem is a map from path to file entry. A file entry is JSON text that parses to a value, text that does not parse, or a file that cannot be read. Bytes, encodings and partial writes are not modelled.
- multer's multipart parsing and disk storage are not modelled. Only the file filter and the stored-name rule are.
- nodemailer and SMTP are not modelled. Whether sending the mail succeeds is a parameter of the contact handler.
- Express wiring, the CORS middleware, express-rate-limit and request logging are framework behaviour. They are not modelled.
- `Date.now()`, `Math.random()` and `new Date().toISOString()` are parameters of the methods that use them. Id or file-name collisions between timestamps are not a contract of the source.
- Numbers are exact reals. Floating-point rounding, `NaN` results of arithmetic other than the carousel's division by zero, and exponent notation in number texts are not modelled.
- Number texts in validation messages are written with at most twenty fraction digits, which bounds the recursion. `String(x)` of the engine is not modelled beyond that.
- Object key order is not modelled, because objects are maps. Neither are aliasing between objects or properties inherited from prototypes, including prototype keys in the client's lookup tables.
- Case mapping (`toLowerCase`, `toUpperCase`) covers ASCII letters only.
- server-minimal.js and server.js are superseded variants of server-old.js and are not part of this model. The same holds for the two locations page backups.
- storySchema (Joi alternatives of nested sections) is not part of this model. The whole-document story `PUT` of the legacy server is covered by `LegacyRoutes.ContentServer.PutDocument`.
- Rendering, styling, DOM scrolling and animation timing are not modelled. This includes the carousel's interval timer (only its step is), the width term of the gallery height, the Navbar scroll progress, opacity and scale, the HeroBanner and PolaroidGrid math, and the keyframes and inline animation table.
- `objectPosition`, the transform heuristics and the info card markup of the mobile work item are not modelled.
- Only the typography and animation constants the combiners are proved on are modelled. The remaining `TYPOGRAPHY_CLASSES` and `ANIMATIONS` entries are plain class strings.
- The fetch hooks other than the work-data hook are network I/O. Neither they nor the text of a failed fetch are modelled. The intermediate `isSubmitting` renders of the contact forms are not modelled.
- Orders in the client sorts are integers. A comparator on `NaN` or fractional orders is not modelled.
- On the locations page only the title read is modelled. The page effect that throws when the banner is missing is not.
- The long message texts are written as two pieces joined by `+`. They are the same strings. `containerClass` props are not modelled.
- The composed label of the Beverly Hills location is tabulated but nothing is proved about it.
- The tests that describe components absent from the repository are not used: WorkGallery.test.tsx, HeroBanner.test.tsx, Navbar.test.tsx, useHeroData.test.js and App.test.tsx. Neither is api.integration.test.js, which replaces every middleware with a mock.
- Carousel.CarouselState.IsFirst: states one direction only. Reporting the first slide implies an index in range or no slides.
- Carousel.CarouselState.IsLast: states one direction only. Reporting the last slide implies an index in range.
- ErrorHandler.SecuredHeaders: its own contract states only that `X-Powered-By` is absent. The headers it sets are stated by the `Secured*` lemmas beside it.
- Auth.TokenRoundTrip: holds for ids that are `null`, a string or a whole number. A fractional or object id would go through JSON as well, but the model promises nothing for it.
- Auth.TokenGrantsRole: holds for the same ids as `Auth.TokenRoundTrip`, for the same reason.
- Auth.WrongCurrentRefused: requires bcrypt keys that differ, not passwords that differ. `Auth.BcryptKeyInjective` turns the one into the other for NUL-free passwords under 72 bytes. Longer passwords that share 72 bytes are accepted for each other (`Auth.LongPasswordsCollide`).
- Auth.ChangedPasswordLogsIn: the old password is refused only when its bcrypt key differs from the new one's, as above.
- Auth.RehashedLogsIn: the same bcrypt-key condition as `Auth.ChangedPasswordLogsIn`.
- Http.FinalHandler: stands for Express's default error handler (finalhandler), which is not part of this model. Only the status and the choice of stack or status page are modelled. The HTML text, the headers and the `headersSent` case are not.
- MapsUrl.ParseUrl: no IDNA mapping, no IPv4 or IPv6 host parsing, and no `xn--` checks. A percent-escape of 0x80 or more becomes one character, not part of a UTF-8 sequence. Links that pass or fail only through those rules are not modelled.
- MapsUrl.HttpsLinkParses: covers links of the form `https://<host>/?<query>` only, with the URL parser reduced as for `MapsUrl.ParseUrl`.
- LocationValidation.LocationValidIff: its link condition uses the reduced URL parser of `MapsUrl.ParseUrl`.
- LocationValidation.MapsLink: a fractional number, alone or inside an array, is read as having no text, so the link fails. JavaScript writes its decimal text, and an array joining a link with such a number can pass.
- JsValue.ToNumber: number texts with an exponent, with a `0x`, `0o` or `0b` prefix, or reading `Infinity` are read as NaN rather than as their value.
- MobileWorkItem.OnLeftIff: a BigInt id would make `%` throw. Parsed JSON holds none, and the model places such a project on the right.
- Patterns.Email: ASCII addresses only, and a top-level domain is any run of two or more letters. The validation library's list of IANA top-level domains and its Unicode addresses are not modelled.
- Patterns.PlainUriAccepted: the URI rule checks the scheme, the URI characters, the `%` escapes and a single `#`. The authority structure (brackets only around an IP literal, digits only in the port) is not checked.

