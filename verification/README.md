# valenAI frontend — a Dafny model of its client-side rules

valenAI lets a sender build a personalised Valentine greeting in a six-step
creator wizard, pay for it by a manually checked M-Pesa or PayPal code, and
share it. Its landing page shows a countdown, a live "created" counter and a
Wall of Lovers, and a greeting can be shown on a poem card with a "No" button
that runs away and an embedded Spotify track.

This project models the pure rules inside those React components as
immutable records and pure functions. It proves what those rules guarantee.

- `JsText` (`js_text.dfy`): the JavaScript string primitives the components
  use. These are `trim` with the ECMAScript whitespace set, `.length` counted
  in UTF-16 code units, and string truthiness.
- `CreatorDraft` (`creator_draft.dfy`): the form record, its defaults, and
  the bounds of `valentineSchema`.
- `CreatorSubmit` (`creator_submit.dfy`): the multipart body `onSubmit`
  builds, and how it reads the creation reply.
- `CreatorPricing` (`creator_pricing.dfy`): the shilling and dollar prices,
  the manual payment handler and its guard, and the paid flag.
- `CreatorPage` (`creator_page.dfy`): the wizard. This covers
  `getFieldsForStep`, `canProceed`, Next, Back, the AI helper's names check,
  and submission and payment as one state machine with its invariant.
- `LandingCountdown` (`landing_countdown.dfy`): the countdown tick and its
  `HH:MM:SS` text.
- `LandingFeed` (`landing_feed.dfy`): the live counter tick and the wall
  merge.
- `PoemCard` (`poem_card.dfy`): the stanza layout, the "No" label tiers, the
  button's positioning, and the title default.
- `SpotifyPlayer` (`spotify_player.dfy`): the embed-URL derivation and the
  empty-link case.
- `Wrappers` (`wrappers.dfy`): `Option`, which stands for `undefined`.

Behaviour kept as the code has it:

- The first wizard step lists `senderLocation` among its required fields. So
  the location, labelled "(Optional)", must be non-blank before Next works
  (`CreatorPage.NamesStepRequirement`).
- The countdown clamps only the hours. So 00:00:00 ticks to 00:59:59 rather
  than stopping (`LandingCountdown.Tick`, `LandingCountdown.InitialCountdownWraps`).
- The track id is the last `/`-piece of the path. A path ending in `/`
  therefore gives an empty id (`SpotifyPlayer.TrailingSlashGivesEmptyId`).
- The AI helper checks names by truthiness only. A name of spaces passes it
  but does not pass the first step (`CreatorPage.AiNamesGuard`).

A further point about the creator page's state: payment is a single boolean
`isPaid`. A success reply from the payment endpoint sets it and nothing clears
it (`CreatorPricing.PaidIsStable`).

## Model

| member | source | states |
|---|---|---|
| JsText.TrimEmptyIffBlank | app/creator/page.tsx:353 | `value.trim().length > 0` holds exactly when the string has a character outside the JavaScript whitespace set |
| JsText.Trim | app/creator/page.tsx:353 | `.trim()` gives a string no longer than its input that neither starts nor ends with a JavaScript whitespace character (also used at lines 338 and 481) |
| JsText.Utf16LengthIsCountIffBmp | app/creator/page.tsx:119 | `.length` counts UTF-16 code units; it equals the character count exactly when no character needs a surrogate pair |
| CreatorDraft.InitialDraft | app/creator/page.tsx:105-111 | the form starts with the classic theme and template, empty title, music link and image URL, no image files, and undefined names, location, message, question and answer |
| CreatorDraft.InitialDraftInvalid | app/creator/page.tsx:17-30 | the schema rejects the initial form, because the names and message are still undefined |
| CreatorDraft.SchemaValid | app/creator/page.tsx:17-30 | a draft the schema accepts has both names defined and a defined, non-empty message |
| CreatorDraft.AstralNameMeetsMinimum | app/creator/page.tsx:18 | the schema's minimum length counts UTF-16 code units, so a one-character name meets `min(2)` exactly when the character lies outside the Basic Multilingual Plane |
| CreatorSubmit.SchemaValidIsSubmittable | app/creator/page.tsx:279-288 | a draft the schema accepts has the sender name, recipient name and message as strings, which the handler appends unconditionally |
| CreatorSubmit.Payload | app/creator/page.tsx:282-297 | each field name appears at most once. The required fields (names, message, theme id, template id) are always sent. Location, title, music link, image URL, question and answer are sent exactly when non-empty, with their value. The image is sent exactly when a file was chosen |
| CreatorSubmit.HandleReply | app/creator/page.tsx:304-321 | the greeting is created, with the reply's slug and token, exactly when the status is ok and the body reports success. Otherwise a non-empty alert shows the reply's message when it has one, the generic creation-failed text when it has none, and the submit-error text when the server cannot be reached |
| CreatorPricing.PriceKes | app/creator/page.tsx:88-94 | a poem costs 500 shillings and a love letter 350; every price is at least 250, and exactly 250 for the one non-premium template |
| CreatorPricing.DollarPrice | app/creator/page.tsx:268-273 | 500 shillings cost 5 dollars and 350 cost 3; every dollar price is at least 2, and exactly 2 for every shilling price other than 500 and 350 |
| CreatorPricing.DollarPriceFollowsShillingPrice | app/creator/page.tsx:268-273 | poem costs 5 dollars, love letter 3 and gift box 2. The dollar price orders templates as the shilling price does, and exceeds 2 exactly for premium templates |
| CreatorPricing.HandleManualPayment | app/creator/page.tsx:118-142 | a request is issued exactly when the code has at least 8 UTF-16 units; otherwise the invalid-code alert shows. The result is paid exactly when it was already paid or the issued request got a success reply. There is no alert exactly on success |
| CreatorPricing.PressVerify | app/creator/page.tsx:118-142 | one press of the verify button leaves the page paid exactly when it already was or the press is accepted: the button is enabled, the code has at least 8 UTF-16 units and the reply reports success |
| CreatorPricing.PaidIsStable | app/creator/page.tsx:131-133 | once paid, no series of further presses clears the paid flag |
| CreatorPricing.PaidIffSomeAttemptAccepted | app/creator/page.tsx:118-142 | starting unpaid, the page ends paid exactly when one press had an enabled button, a long enough code and a success reply |
| CreatorPricing.RequestedCodeIsPlausible | app/creator/page.tsx:479-481 | a press on the enabled button sends a request exactly when the code is not blank and has at least 8 code units |
| CreatorPage.FilledIffPresent | app/creator/page.tsx:349-355 | a required field is filled exactly when its value is defined and has a non-whitespace character |
| CreatorPage.FieldsForStep | app/creator/page.tsx:327-347 | each step requires at most three fields, none listed twice, and a step outside 1-6 requires none |
| CreatorPage.CanProceed | app/creator/page.tsx:349-355 | a step that requires no field can always be left, and a step that can be left has every field it requires filled |
| CreatorPage.NamesStepRequirement | app/creator/page.tsx:329-330 | step 1 may be left exactly when sender name, sender location and receiver name are all non-blank |
| CreatorPage.ChoiceStepsNeverBlock | app/creator/page.tsx:331-336 | the template step and the extras step always let the wizard advance |
| CreatorPage.CustomizeStepRequirement | app/creator/page.tsx:333-334 | step 3 may be left exactly when the message is non-blank |
| CreatorPage.SecurityStepRequirement | app/creator/page.tsx:337-341 | step 5 requires the answer exactly when the question is non-blank after trimming, so a blank question always passes |
| CreatorPage.Next | app/creator/page.tsx:1188-1196 | Next moves up by exactly one when the step is below 6 and `canProceed` holds, and otherwise leaves the step alone; steps stay within 1..6 |
| CreatorPage.Back | app/creator/page.tsx:1177-1181 | Back gives `max(1, step - 1)`: one step back, never below 1, and a no-op at step 1 |
| CreatorPage.Step | app/creator/page.tsx:279-325 | one user event. Once the greeting is created, only the payment flag can change. Before that, the payment flag stays false and the slug and token stay unset. Only a submit can complete the page, and only an edit changes the draft. The handlers are Back and Next (lines 1180, 1191-1195), the AI helper (145-149, 559) and verify (118-142) |
| CreatorPage.AiNamesGuard | app/creator/page.tsx:144-150 | asking the AI helper with an undefined or empty name sends the wizard to step 1 and closes the dialog; when both names are non-empty but either consists only of whitespace, the check lets the request through although step 1 would refuse the draft |
| CreatorPage.AiDialogCloses | app/creator/page.tsx:559 | the close button shuts the AI dialog and leaves the step and the draft alone, after which a generate request changes nothing; picking a message or a poem (lines 609-612 and 634-638) is an edit of the draft followed by the close, which ends with the edited draft, the dialog shut and the step unchanged |
| CreatorPage.SubmitOutcomeOnLastStep | app/creator/page.tsx:306-310 | a successful creation on step 6 marks the greeting completed with its slug and token and keeps step 6. Any other reply, or a draft the schema rejects, changes nothing |
| CreatorPage.StepKeepsValid | app/creator/page.tsx:1175-1201 | every event keeps the step in 1..6. The step rises only through Next, by one, from a step whose fields are filled. Only edits change the draft. Creation and payment are never undone, and completion needs a valid draft and a success reply |
| CreatorPage.RunKeepsValid | app/creator/page.tsx:56-57 | from any valid page state, every series of events keeps the invariant and keeps a paid flag set |
| CreatorPage.ReachableStatesValid | app/creator/page.tsx:56-57 | every state reachable from the initial page satisfies the invariant |
| CreatorPage.NoStepSkipped | app/creator/page.tsx:1188-1196 | to stand on step k the wizard must earlier have stood on step k-1 with its fields filled and pressed Next |
| CreatorPage.VerifyStepIsPress | app/creator/page.tsx:118-142 | on the finished page a verify event changes the paid flag exactly as one press of the button does, and changes nothing else |
| CreatorPage.VerifyRunIsPaidAfter | app/creator/page.tsx:118-142 | on the finished page a series of verify presses leaves the paid flag where the press-by-press payment rule puts it, so the page ends paid exactly when it already was or one press was accepted |
| LandingCountdown.Tick | app/page.tsx:96-110 | seconds > 0 takes one second. At 0 seconds it borrows a minute (59 seconds); at 0:00 it borrows an hour (59:59). Hours never go negative, well-formed clocks stay well-formed, and 00:00:00 wraps to 00:59:59 |
| LandingCountdown.TickCountsDown | app/page.tsx:98-108 | a tick removes exactly one second from a clock that has not run out, and gives 3599 seconds at zero |
| LandingCountdown.TicksCountDown | app/page.tsx:95-113 | after n ticks, with n no more than the time left, a well-formed clock shows exactly n seconds less |
| LandingCountdown.InitialCountdownWraps | app/page.tsx:15-19 | from 14:22:31 the countdown reaches 00:00:00 after 51751 ticks and the next tick shows 00:59:59 |
| LandingCountdown.FieldReadsBack | app/page.tsx:155 | each padded field is at least two digits and reads back as its number; values up to 99 take exactly two |
| LandingCountdown.DisplayShape | app/page.tsx:155 | a well-formed clock under 100 hours shows as eight characters `HH:MM:SS` whose fields read back as the clock's values |
| LandingCountdown.Display | app/page.tsx:155 | the countdown text always has at least eight characters, since each padded field has at least two |
| LandingFeed.CounterTick | app/page.tsx:88-90 | each live-counter tick adds between 1 and 3 |
| LandingFeed.CounterTickReachesEachStep | app/page.tsx:89 | each of the increments 1, 2 and 3 is produced by some random draw |
| LandingFeed.CounterGrowth | app/page.tsx:86-92 | after n ticks the counter has grown by at least n and at most 3n |
| LandingFeed.ToLover | app/page.tsx:65-70 | a row keeps the record's names and time, uses its own location when non-empty and one of the eight towns otherwise, and always has a location |
| LandingFeed.MergeWall | app/page.tsx:61-77 | a missing or empty reply leaves the wall unchanged |
| LandingFeed.MergeWallSpec | app/page.tsx:72-75 | a non-empty reply puts the fetched rows first in order and the old rows after them in order. The result is cut to min(15, total), and a valid wall stays valid |
| LandingFeed.InitialWallValid | app/page.tsx:22-31 | the built-in wall has at most 15 rows, each with a location |
| LandingFeed.MergesKeepWallValid | app/page.tsx:45-84 | any series of replies keeps a valid wall valid |
| PoemCard.RenderKeepsLines | components/PoemCard/PoemCard.tsx:55-62 | every line is rendered once and in order, and n lines get n/4 stanza gaps |
| PoemCard.Render | components/PoemCard/PoemCard.tsx:55-62 | n lines render to 2n + ⌊n/4⌋ nodes: a text and a break per line, and a gap per completed stanza |
| PoemCard.LineNodesContents | components/PoemCard/PoemCard.tsx:56-61 | one line renders its text exactly once, followed by a break, and by a stanza gap exactly after every fourth line |
| PoemCard.RenderLayout | components/PoemCard/PoemCard.tsx:56-61 | line i is followed by a break, and a stanza gap follows that break exactly when (i+1) mod 4 = 0 |
| PoemCard.Tier | components/PoemCard/PoemCard.tsx:136-140 | the label tier is 0 exactly for no escapes, 1 exactly for 1-2, 2 exactly for 3-4, 3 exactly for 5-7 and 4 exactly from eight escapes on |
| PoemCard.NoLabel | components/PoemCard/PoemCard.tsx:136-140 | the button reads "No" exactly when it has not yet escaped |
| PoemCard.NoLabelTiers | components/PoemCard/PoemCard.tsx:136-140 | the label is the tier's label: No, "Are you sure?" for 1-2, "Really sure? 😢" for 3-4, "Please?" for 5-7, "Okay I'm fast! 🏃‍♂️" for 8 on. The tier never goes down as escapes grow |
| PoemCard.LabelsDistinct | components/PoemCard/PoemCard.tsx:136-140 | the five labels differ, so a label determines its tier |
| PoemCard.AbsoluteIffLabelChanged | components/PoemCard/PoemCard.tsx:134-140 | the button is absolutely positioned exactly when its label is no longer "No" |
| PoemCard.DisplayTitle | components/PoemCard/PoemCard.tsx:96 | the title is the given one when non-empty and "Your Poem" otherwise; it is never empty |
| SpotifyPlayer.Split | components/SpotifyPlayer.tsx:20 | `split('/')` gives at least one piece, and no piece contains the separator |
| SpotifyPlayer.SplitJoin | components/SpotifyPlayer.tsx:20 | joining the pieces with the separator gives the path back |
| SpotifyPlayer.LastSegmentIsAfterLastSlash | components/SpotifyPlayer.tsx:20-21 | the track id is the suffix of the path after its last '/' (the whole path if there is none) and contains no '/' |
| SpotifyPlayer.LastSegment | components/SpotifyPlayer.tsx:20-21 | the last piece of `pathname.split('/')` contains no '/', and is empty for an empty path |
| SpotifyPlayer.TrailingSlashGivesEmptyId | components/SpotifyPlayer.tsx:20-21 | a path ending in '/' gives an empty track id |
| SpotifyPlayer.EmbedUrl | components/SpotifyPlayer.tsx:17-26 | an unparsable link is returned unchanged. For a parsed link, the track id read back from the address is the suffix of the path after its last `/` (the whole path when there is none), contains no `/`, and does not depend on the query |
| SpotifyPlayer.EmbedRoundTrip | components/SpotifyPlayer.tsx:22 | the embed address has the fixed prefix and suffix, and the track id reads back out of it |
| SpotifyPlayer.Player | components/SpotifyPlayer.tsx:10-28 | an empty link renders nothing. Otherwise the player source carries the path's last piece as its track id, or is the link itself when it does not parse |

## Left out

- Network requests are left out: AI text and poem generation, poem and music search, the creation POST, the payment POST, and the stats and wall GETs. Only the decision taken on a reply is modelled; the reply is a parameter.
- `localStorage` ownership, clipboard writes, `window.open` and WhatsApp links are ambient browser effects and are left out.
- JsText.Utf16Length: a Dafny `char` is a Unicode scalar value, so a JavaScript string that holds a lone surrogate cannot be represented. The code-unit counts behind the 2-unit name minimum and the 8-unit payment-code minimum are modelled only for well-formed strings.
- URL parsing is abstract. Spotify links arrive as `Parsed(pathname, search)` or `Unparsable`. The schema's `.url()` check is an `isUrl` parameter.
- Timers (`setInterval`, `setTimeout`) are left out. One tick is a pure function, and `Math.random()` is a real parameter in [0, 1).
- LandingFeed.CounterTick: Math.random() is a real in [0, 1), not a double. So the floating-point product `random * 3` is exact in the model.
- The stats-based live count, the "couples" figure and random heart and petal placement are left out. They are floating-point cosmetics.
- The loading and copied flags, the poem and music search queries and result lists, and the chosen payment method are left out. The method only changes the text shown and which price is displayed. The AI dialog's open flag is kept as `Creator.aiOpen`: `OpenAi` sets it, and `CloseAi` (the close button, or the close that follows picking a message or poem) and a failed names check clear it.
- CreatorPage.Step: `OpenAi` is accepted on every step, although the page shows its button only on the message step. `Edit` replaces the whole draft on any step, although the page's inputs change one field at a time. Both let more runs through than the page does, so the invariants proved over `Run` also hold for the page's runs.
- The theme and template choices are assumed to hold one of their listed ids. The page only ever sets them from those lists.
- CreatorPage.Step: submitting, verifying a payment and asking the AI helper are each one atomic event that carries its reply. Events that arrive while a request is pending are not interleaved. The page disables only the Create button while the creation request runs (app/creator/page.tsx:1205). Back and the inputs stay enabled, and a success still completes the page (lines 306-310). So a user can change the template during the request, and the payment screen then prices the current template (line 358) rather than the one sent. The model cannot show that case.
- CreatorPage.Step: the submit event is taken only on step 6. That is where the submit button is, and every text input swallows Enter.
- LoveLetter drag handling, the explore page and the layout are not part of this model.
- The receiver view, management page and server are not part of this model. That covers secret-answer matching, owner preview, view counts and response recording.
