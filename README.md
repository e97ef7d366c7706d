# ASTREVIO form handling, carousel and accordion — a Dafny model

This project models the parts of the ASTREVIO site (the Vastu Craft marketing
site) that have behaviour worth stating:

- **The three serverless form endpoints** (`api/contactApi.js`,
  `api/inquiryApi.js`, `api/emailSubscribingApi.js`). Each handler is a
  straight-line sequence:
  - a method check (405);
  - the memoised `dbConnection`;
  - joi validation (400);
  - a per-endpoint duplicate lookup (409): e-mail or phone for contacts,
    none for inquiries, e-mail only for subscriptions;
  - `save()` (201, or 400 on a falsy result, or 500 on a throw);
  - two notification mails, whose failures are swallowed.

  `FormApi.Step` states one request as a function of the store, the
  connection cache and what the outside world answers (`Env`). The three
  files differ only in texts, rules, duplicate policy and the stored
  document, so one `Kind` parameter selects each endpoint's choices.
  `ApiHandler.Endpoint` is the process state: the module-level `cached`
  connection, the collection, a count of connection attempts and the
  delivered mail. Its `Handle` method is proved to produce exactly what
  `Step` says.
- **The redux reducer** behind the inquiry modal (`src/reducer/reducer.js`).
- **The testimonial carousel** (`src/sections/Testimonial.jsx`): cards per
  slide, slide count, wrap-around arrows, the timer tick, the pause flag, the
  resize clamp and the entry/exit offsets. `Testimonial.Carousel` is a class
  over the component's three state variables.
- **The FAQ accordion** (`src/sections/Steps.jsx`): one `openFaqIndex`, -1
  when everything is folded.
- **The client-side form rules and the submit lifecycle** of the contact
  page, the inquiry modal and the newsletter box:
  - the rules include the e-mail pattern `/^[^\s@]+@[^\s@]+\.[^\s@]+$/`,
    proved equal to a structural description;
  - the lifecycle is the `loading` guard, the reset on 201, the modal closing
    on 201, and the close button that is disabled while loading.

Library behaviour is a parameter (`FormApi.Externals`):
- joi's e-mail and number checks;
- JavaScript's `Number(...)`;
- the per-field cast a mongoose schema applies (`lowercase`, `trim`, the
  `Number` type).

Mongoose applies the same casting to query filters as to stored documents,
so one `cast` serves both. Normalisation stays a parameter: nothing assumes
case-insensitive matching.

Uniqueness of the contact phone depends on an assumption, `FormApi.Coherent`.
The handler stores `Number(phone)` but filters on the raw `phone`. So the
proof assumes the schema casts a numeric value and its `Number(...)` alike.

## Model

| member | source | states |
|---|---|---|
| FormApi.Validates | api/inquiryApi.js:47-56 | a body that passes has a valid e-mail. For contacts and inquiries it also has a non-empty name and a phone. For inquiries the phone is a string of 10 or more characters. |
| FormApi.ContactIgnoresOtherFields | api/contactApi.js:140-141 | changing any field other than name, phone and email (the message, say) never changes the contact validation verdict |
| FormApi.NewsletterIgnoresOtherFields | api/emailSubscribingApi.js:131-132 | only the e-mail decides the subscription validation verdict |
| FormApi.IsDuplicate | api/contactApi.js:146 | a contact is refused when some stored record has its e-mail or some stored record has its phone; a subscription only on the e-mail; an inquiry never; nothing is a duplicate of an empty store |
| FormApi.Document | api/contactApi.js:151 | the contact document is the body with `phone` replaced by `Number(phone)` and every other field kept; the inquiry document is the whole body; the subscription document is exactly `{ email }` |
| FormApi.NewRecord | api/inquiryApi.js:167 | the stored record has exactly the document's fields that the schema declares, each one cast. A contact's phone is `Number(phone)` cast. A subscription is exactly `{email}`. |
| FormApi.Notifications | api/contactApi.js:154-157 | the user mail and the operator mail each arrive exactly when their send succeeds, with the endpoint's subjects; a failed send drops only its own mail, and no other mail is ever added |
| FormApi.Step | api/contactApi.js:134-165 | status is one of 201/400/405/409/500, and isSuccess holds iff 201. 405 iff not POST, with nothing touched. A POST always runs the connection step. An invalid body gets 400 "Validation Error". A valid body with no live connection, or whose lookup throws, gets 500 "Internal Server Error". 409 iff the lookup finds a match, with the endpoint's text. Past the lookup a falsy save gets 400 with the endpoint's save text and a throwing save gets 500. 201 iff valid, connected, no match and save truthy: then exactly one record is appended and the mails go out. Any other reply writes nothing and sends nothing. |
| FormApi.NewRecordIsFresh | api/contactApi.js:146-151 | a record admitted past the lookup shares no e-mail or phone (contacts) and no e-mail (subscriptions) with any stored record |
| FormApi.StepKeepsUnique | api/contactApi.js:146-158 | one request keeps the store free of two records with the same natural-key value |
| FormApi.RunKeepsUnique | api/emailSubscribingApi.js:139-147 | over any sequence of requests handled one at a time, no two stored contacts share an e-mail or a phone, and no two subscriptions share an e-mail |
| FormApi.RunOnlyAppends | api/inquiryApi.js:166-168 | over any sequence of requests, the initial store is a prefix of the final store: records are never changed or removed |
| FormApi.RunKeepsConnection | api/contactApi.js:9-26 | once a connection is cached, no sequence of later requests replaces it |
| FormApi.RunKeepsDuplicate | api/emailSubscribingApi.js:139-144 | a body the lookup refuses stays refused after any further requests |
| FormApi.ResubmitConflicts | api/contactApi.js:146-149 | re-sending an accepted contact or subscription gets 409 with the endpoint's text and writes nothing |
| FormApi.InquiryAcceptsRepeats | api/inquiryApi.js:166-168 | the same valid inquiry sent twice gets 201 twice and is stored twice |
| FormApi.MailDoesNotDecide | api/contactApi.js:64-74 | the reply, the store and the cache are the same whatever the mail sends do |
| ApiHandler.Endpoint.constructor | api/contactApi.js:9 | a cold start over whatever collection the database already holds: the store is that collection, and there is no cached connection, no attempt yet and no mail |
| ApiHandler.Endpoint.DbConnection | api/contactApi.js:10-26 | a cached handle is returned without a new attempt; otherwise one attempt is made and only a handle it resolves to is cached |
| ApiHandler.Endpoint.SendMail | api/contactApi.js:65-74 | a delivered mail is appended to the outbox; a failed one leaves it unchanged |
| ApiHandler.Endpoint.Handle | api/contactApi.js:134-165 | the reply, new store, new cache and delivered mail are exactly those of `Step`. The store stays unique. One connection attempt happens exactly for a POST with nothing cached. |
| ApiHandler.Endpoint.Submission | api/contactApi.js:139-164 | after the connection step, the reply, store and outbox match `Step`, and uniqueness is kept |
| ApiHandler.Endpoint.Insert | api/contactApi.js:151-161 | past validation and lookup, the save outcome gives the reply, store and outbox `Step` prescribes |
| ModalReducer.Reduce | src/reducer/reducer.js:5-17 | "open" sets isOpen and "close" clears it, both keeping every other field; any other action returns the state unchanged |
| ModalReducer.Reducer | src/reducer/reducer.js:1-5 | with no state the reducer starts from the closed initial state |
| ModalReducer.SwitchIdempotent | src/reducer/reducer.js:7-12 | "open" twice equals "open" once, and likewise "close" |
| ModalReducer.RunFollowsLastSwitch | src/reducer/reducer.js:5-17 | after any action sequence, isOpen equals the last "open"/"close" in it (or the starting flag if there is none), and other fields are untouched |
| ModalReducer.InitialRun | src/reducer/reducer.js:1-17 | from the initial state, the modal is open iff the last switch was "open" |
| Testimonial.CardsPerSlide | src/sections/Testimonial.jsx:54 | one card below 768 pixels, two otherwise |
| Testimonial.TotalSlides | src/sections/Testimonial.jsx:58 | the slide count is the ceiling of 4 / cardsPerSlide: the least n with n * cardsPerSlide >= 4 |
| Testimonial.SlidesByWidth | src/sections/Testimonial.jsx:54-58 | four slides on a narrow window and two on a wide one |
| Testimonial.Next | src/sections/Testimonial.jsx:81-84 | on a valid index, the next index is (i + 1) mod total |
| Testimonial.Prev | src/sections/Testimonial.jsx:76-79 | on a valid index, the previous index is (i - 1) mod total |
| Testimonial.NextPrevInverse | src/sections/Testimonial.jsx:76-84 | next and prev undo each other on valid indices |
| Testimonial.Clamp | src/sections/Testimonial.jsx:70-74 | an index past the last slide becomes the last slide, an index already in range is left alone, so the result is always in range |
| Testimonial.HiddenOffset | src/sections/Testimonial.jsx:105-110 | the entry offset depends only on index mod 3 and moves along exactly one axis |
| Testimonial.ExitOffset | src/sections/Testimonial.jsx:121-125 | the exit offset depends only on index mod 3 and moves along exactly one axis |
| Testimonial.ExitMirrorsHidden | src/sections/Testimonial.jsx:105-130 | each card's exit offset is its entry offset negated |
| Testimonial.Carousel.constructor | src/sections/Testimonial.jsx:12-55 | the carousel starts on slide 0, unpaused, with the width's cards per slide |
| Testimonial.Carousel.HandlePrev | src/sections/Testimonial.jsx:76-79 | moves to the previous slide with wrap-around, pauses, and keeps the index in range |
| Testimonial.Carousel.HandleNext | src/sections/Testimonial.jsx:81-84 | moves to the next slide with wrap-around, pauses, and keeps the index in range |
| Testimonial.Carousel.Tick | src/sections/Testimonial.jsx:86-94 | a timer tick advances like the right arrow only while unpaused and never changes the pause flag |
| Testimonial.Carousel.MouseEnter | src/sections/Testimonial.jsx:96-98 | hovering pauses and keeps the index in range |
| Testimonial.Carousel.MouseLeave | src/sections/Testimonial.jsx:100-102 | leaving unpauses and keeps the index in range |
| Testimonial.Carousel.Resize | src/sections/Testimonial.jsx:61-74 | a resize sets cards per slide from the width, then clamps the index into the new slide count |
| Faq.Toggle | src/sections/Steps.jsx:34-36 | toggling the open index folds everything; toggling another index opens exactly that one |
| Faq.MaxHeight | src/sections/Steps.jsx:118-123 | an answer is 300px high iff its item is the open one, else 0px |
| Faq.IconOf | src/sections/Steps.jsx:113-116 | the minus icon shows iff the item is the open one |
| Faq.ToggleInRange | src/sections/Steps.jsx:34-36 | toggling an existing question keeps the state -1 or a valid index |
| Faq.AtMostOneExpanded | src/sections/Steps.jsx:95-123 | at most one answer is expanded, and none when the state is -1 |
| Faq.ToggleTwice | src/sections/Steps.jsx:34-36 | clicking the same question twice restores a state that was -1 or that question |
| Faq.Accordion.constructor | src/sections/Steps.jsx:9 | nothing is open at first |
| Faq.Accordion.ToggleFaq | src/sections/Steps.jsx:34-36 | a click stores the toggled value and keeps the state in range |
| FormRules.PatternLength | src/pages/Contact.jsx:121 | every string the e-mail pattern (`MatchesEmailPattern`) accepts has at least five characters, as in "a@b.c" |
| FormRules.PatternHasShape | src/pages/Contact.jsx:118-124 | a string matching the e-mail pattern has no blanks, exactly one '@', a non-empty local part and a domain with an inner '.' |
| FormRules.ShapeMatchesPattern | src/pages/Contact.jsx:118-124 | every string of that shape matches the pattern |
| FormRules.EmailPatternShape | src/sections/Footer.jsx:70-76 | the e-mail pattern accepts exactly the strings of that shape |
| FormRules.ClientValid | src/pages/Contact.jsx:93-124 | values that pass have an e-mail of five or more characters, and, except in the newsletter box, a non-empty name and a phone of ten or more characters |
| FormRules.ClientRulesShape | src/layout/Mainlayout.jsx:76-115 | a form passes iff it has a non-empty name and a phone of at least 10 characters (except the newsletter) and a well-shaped e-mail |
| FormRules.MessageIsFree | src/pages/Contact.jsx:131-138 | the message field never changes whether the form passes |
| FormLifecycle.ButtonLabel | src/sections/Footer.jsx:80-88 | the button reads "Submitting..." exactly while loading |
| FormLifecycle.ModalShownAfter | src/layout/Mainlayout.jsx:56 | the modal is in the page (`ModalRendered`) exactly when the last "open"/"close" dispatched since the initial state was "open" |
| FormLifecycle.ToBody | src/layout/Mainlayout.jsx:75-131 | the posted body has exactly the form's registered fields, each the string its input holds, "" for one never typed into |
| FormLifecycle.ReplyOf | src/pages/Contact.jsx:34-49 | a 201 reply reaches the form as a resolved 201; every non-2xx reply as a rejection |
| FormLifecycle.EveryReplyResetsOrFails | src/pages/Contact.jsx:33-52 | every endpoint reply reaches the form as either the 201 that resets it or a rejection |
| FormLifecycle.EmptyInquiryMessageRefused | api/inquiryApi.js:47-56 | an inquiry that passes the modal's rules with an empty message, cleared or never typed, is still refused by the endpoint |
| FormLifecycle.InquiryPassesIffMessage | api/inquiryApi.js:55 | an inquiry the modal lets through, with an address joi accepts, passes the endpoint's validation exactly when its message is not empty |
| FormLifecycle.Form.constructor | src/pages/Contact.jsx:15-22 | a form starts empty, not loading, with no alerts |
| FormLifecycle.Form.Type | src/pages/Contact.jsx:90-95 | typing changes a field only while the input is enabled |
| FormLifecycle.Form.Submit | src/layout/Mainlayout.jsx:23-28 | invalid values or a pending request post nothing and change nothing; otherwise loading is set and every registered field is posted |
| FormLifecycle.Form.Complete | src/layout/Mainlayout.jsx:27-47 | loading is cleared on every completion. A 201 shows the success alert, resets the fields and (in the modal) closes the modal. A rejection shows the error alert and keeps the fields and the modal. |
| FormLifecycle.Form.CloseClicked | src/layout/Mainlayout.jsx:56-69 | the close button closes a shown modal unless loading, and does nothing while loading |

## Left out

- The HTML mail templates: opaque string rendering. Mails are modelled by addressee and subject only.
- The mail sender address and credentials, and every other environment variable.
- The connection options, except `bufferCommands: false`, which is why a missing connection makes the first store call fail with 500.
- The `timestamps` fields and `_id` that mongoose adds to stored documents.
- The joi error details in the 400 body: only status, isSuccess and message are modelled.
- Concurrency: `Promise.all` ordering between the two mails, interleaved requests, and the race between the duplicate lookup and the insert. Requests are handled one at a time.
- Logging (`console.log`).
- A request body that is not a JSON object: the body is always a field map.
- `mongoose.connect`'s own behaviour: its result is a per-request input.
- Carousel animation: framer-motion transitions, the stagger delay, the `translateX` track position and the IntersectionObserver visibility.
- Testimonial.Carousel.Tick: the 3000 ms interval is a tick step, and the clearing and re-arming of the interval is not modelled.
- Testimonial.Carousel.Resize: a resize is a width input, and the render between `setCardsPerSlide` and the clamp effect is not modelled.
- FAQ animation (the `max-height` transition and the fade-in) and its static question texts.
- Form error messages and their display, react-hook-form's `reset` internals, and its treatment of disabled inputs.
- FormRules.PhoneRule: length counts Dafny characters (code points), whereas the browser counts UTF-16 code units; the two agree on the digits a phone field holds.
- FormApi.Validates: the inquiry phone's `min(10)` counts code points here, whereas joi counts UTF-16 code units; they differ only on characters outside the Basic Multilingual Plane.
- FormRules.ClientValid: the browser's own checks on native input types are not modelled. The modal's phone input is `type="number"`, and the modal's and footer's e-mail inputs are `type="email"`; no form sets `noValidate`. So the browser can block an address the pattern accepts (such as "a@b..co"), and a non-numeric phone reads as "".
- FormRules.ClientRulesShape: the same native input checks are not modelled, so "passes" means passing react-hook-form's rules only.
- SweetAlert dialog texts, and axios transport details beyond how a status settles the promise.
- Presentational pages and sections (Hero, FeaturedDesign, Servicesection, Newsletter, Navbar, Home, About, Services, PageNotFound) and the router in `src/App.jsx`.
- FormApi.RunKeepsUnique: phone uniqueness for contacts is proved under `Coherent`. That is the assumption that the schema casts `Number(phone)` and the raw `phone` to the same stored value, because the handler stores one and filters on the other.
- FormApi.StepKeepsUnique: the same `Coherent` assumption.
- ApiHandler.Endpoint.Handle: the same `Coherent` assumption, which is part of `Valid`.
