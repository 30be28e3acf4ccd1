# ua_help dialog engine and helpers, modelled in Dafny

This project models the core of **ua_help**, a Telegram bot that matches volunteers with people who need help. It covers:

- the per-chat dialog state machine of the volunteer and seeker flows, with the category checkbox keyboard they share;
- the older `dialog.go` snapshot of the same engine;
- the middleware stack and the user-upsert middleware;
- the service layer that maps storage rows and fans out help requests;
- the localizer;
- the community-removal step of the locality migration.

Every Telegram send, storage call and service call is an input to the model: a `sendOk` flag (`nat -> bool` when a handler sends several messages) or a function-typed field that stands for the storage or service. A handler is a method on the handler object and the chat's dialog objects. Its contract states the next step, the dialog fields, which messages went out and whether the session was deleted.

Modules, one file each:

- `Wrappers`: Option, Result, and the `ErrAlreadyExists` or other error.
- `Strings`: `strings.Contains` and decimal formatting.
- `Keyboard`: the greedy two-per-row layout.
- `Checkbox`: `categoryCheckbox`, `invertCategoryButton`, `rmCategory` and the keyboard layout.
- `Translate`: the `Localizer`.
- `Transport`: the Telegram values and the `context.Context` chain.
- `Handle`: `Update` and the middleware `Stack`.
- `Service`: service.go.
- `Session`: the dialog objects and the dialog map of the volunteer.go/seeker.go version.
- `VolunteerFlow`, `SeekerFlow`: the two flows.
- `DialogFlow`: the dialog.go snapshot.
- `Upsert`: mwupsert.go.
- `LocalityMigration`: the community removal.

**Where the code and its own comments or evident intent disagree, the model follows the code.**

- At most one payload per dialog. The `dialog` struct's comment at `internal/bot/dialog.go:120` says that either the volunteer or the seeker payload is populated during a dialog. The role replies do not clear the other payload. `SeekerFlow.SeekerUserRoleReply` keeps the volunteer, and `VolunteerFlow.VolunteerUserRoleReply` keeps the seeker; their contracts state this.
- The seeker limit message is formatted with the help quota (2), not with the subscription quota (5).
- A locality chosen in an earlier seeker reply survives a reply that matches no candidate. The listing then runs for the stale choice.
- The seeker's locality step stores the candidates and advances before it sends.

Two properties hold only under an invariant that the source never writes down:

- The selection holds exactly the ticked boxes, each id once. `Checkbox.ToggleKeepsInv` proves that every toggle preserves this.
- `rmCategory` walks the selection with `range` while splicing it in place. When the selection holds the id twice, this can splice past the shortened length and panic. `Checkbox.RmCategory` models the panic, and proves that it cannot happen, and that the result is the filter, when the ids are distinct.

## Model

| member | source | states |
|---|---|---|
| Checkbox.KeyboardButton | internal/bot/volunteer.go:326-332 | the button text always ends with the category label |
| Checkbox.ButtonRendering | internal/bot/volunteer.go:326-332 | a ticked box renders with the check mark, so never as its bare label; either rendering contains the label |
| Checkbox.Invert | internal/bot/volunteer.go:334-341 | the box flips exactly when the text contains its label, and the new state is returned; otherwise the keyboard is unchanged and (false, false) is returned |
| Checkbox.FirstMatchFrom | internal/bot/volunteer.go:289-290 | the index found is the first box from k whose label the text contains; None means no such box |
| Checkbox.FirstMatchIgnoresTicks | internal/bot/volunteer.go:289-290 | which box a text selects depends on the labels only, not on what is ticked |
| Checkbox.RemoveAt | internal/bot/volunteer.go:306-312 | in a selection with distinct ids, removing an id is the splice at its position |
| Checkbox.RemoveKeeps | internal/bot/volunteer.go:306-312 | removal keeps exactly the entries with other ids |
| Checkbox.Toggle | internal/bot/volunteer.go:288-304 | a box matched exactly when some label occurs in the text; when none matches, nothing changes and the id is zero; the reported id is the first match's |
| Checkbox.ToggleFirstMatch | internal/bot/volunteer.go:288-304 | only the first matching box flips, and every other box is untouched |
| Checkbox.ShadowedButton | internal/bot/volunteer.go:288-304 | pressing a later button whose text contains an earlier label toggles that earlier box or one before it, not the pressed one |
| Checkbox.TickKeepsInv | internal/bot/volunteer.go:291-296 | ticking a box and appending its category keeps the selection equal to the ticked boxes, with ids distinct |
| Checkbox.UntickKeepsInv | internal/bot/volunteer.go:288-312 | unticking a box and removing its id keeps the selection invariant |
| Checkbox.ToggleKeepsInv | internal/bot/volunteer.go:288-312 | every toggle preserves the invariant that the selection is exactly the ticked boxes, each once |
| Checkbox.DoubleToggleFromUnchecked | internal/bot/volunteer.go:288-312 | ticking then unticking the same box restores keyboard and selection exactly |
| Checkbox.DoubleToggleFromChecked | internal/bot/volunteer.go:288-312 | unticking then ticking restores the keyboard and the selection's contents, with that category moved to the end |
| Checkbox.InitialSelection | internal/bot/volunteer.go:97-104 | the all-unticked keyboard with the empty selection satisfies the invariant |
| Checkbox.NewCheckboxKeyboard | internal/bot/volunteer.go:97-103 | the new keyboard has one unticked box per category, in order |
| Checkbox.RmCategory | internal/bot/volunteer.go:306-312 | on a selection with distinct ids the in-place splice loop does not panic and leaves the selection without that id, others in order |
| Checkbox.InvertCategoryButton | internal/bot/volunteer.go:288-304 | the keyboard, reported id, match flag and selection are those of Toggle; no match leaves the selection as it was |
| Checkbox.LayoutShape | internal/bot/volunteer.go:270-286 | every box once and in order, rows of one or two, and a final single "next" row exactly when the label is non-empty |
| Checkbox.CategoryKeyboardLayout | internal/bot/volunteer.go:270-286 | the loop builds the greedy two-per-row Layout of the keyboard |
| Keyboard.PairsFlatten | internal/bot/volunteer.go:272-279 | the rows hold the buttons in order, each once |
| Keyboard.PairsRows | internal/bot/volunteer.go:272-279 | ceil(n/2) rows, all but the last full, the last of size 2 - n mod 2 |
| Keyboard.PairsSnocEven | internal/bot/volunteer.go:273-275 | after an even number of buttons the next one opens a new row of its own |
| Keyboard.PairsSnocOdd | internal/bot/volunteer.go:278 | after an odd number of buttons the next one joins the last row, which then holds two |
| Keyboard.PairsStep | internal/bot/volunteer.go:273-278 | one loop step: start a new row after a full one, otherwise extend the last row |
| Translate.Translate | internal/bot/translate.go:93 | the text of key and language, or "" when either is missing |
| Translate.Month | internal/bot/translate.go:107-109 | month m is entry m-1 of the language's month table, defined exactly for m within the table |
| Translate.WeekDay | internal/bot/translate.go:111-113 | weekday w is entry w of the weekday table (Sunday = 0), defined exactly within the table |
| Translate.FormatTime | internal/bot/translate.go:99-101 | five characters "HH:MM", digits around the colon |
| Translate.FormatTimeRoundTrip | internal/bot/translate.go:99-101 | the two fields read back as the hour and the minute |
| Translate.FormatDate | internal/bot/translate.go:103-105 | weekday, space, decimal day, space, month; defined exactly when both names exist |
| Translate.FormatDateTime | internal/bot/translate.go:95-97 | the date, a space, and the time |
| Translate.FormatDateTimeLayout | internal/bot/translate.go:95-113 | with full tables the result is always defined, ends in the 5-character time and carries the day right after the weekday |
| Strings.DecimalRoundTrip | internal/bot/translate.go:104 | the decimal day reads back as the number |
| Strings.DecimalInjective | internal/bot/translate.go:104 | different days give different decimal strings |
| Strings.TwoDigitsRoundTrip | internal/bot/translate.go:100 | the zero-padded field reads back as the number |
| Handle.ChatID | internal/bot/handle.go:32-37 | the callback's message chat when there is a callback, otherwise the message's chat; nil dereferences are None |
| Handle.User | internal/bot/handle.go:25-30 | the callback's sender when there is a callback, otherwise the message's sender |
| Handle.BuildStack | internal/bot/handle.go:88-101 | the chain lists the middlewares in registration order and ends with the no-op |
| Handle.Invoked | internal/bot/handle.go:84-101 | the number of middlewares that run: every one before the last invoked continues, and one that stops ends the run |
| Handle.RunStep | internal/bot/handle.go:84-109 | a middleware runs the rest of the chain exactly when it continues |
| Handle.Dispatch | internal/bot/handle.go:84-101 | a run records the events of the invoked prefix, in registration order, and does not panic |
| Handle.NopTail | internal/bot/handle.go:103-105 | the tail after the last middleware records nothing |
| Handle.ShortCircuit | internal/bot/handle.go:84-101 | middlewares after one that does not continue never run |
| Handle.Wrap | internal/bot/handle.go:75-77 | a wrapped handler runs the handler and nothing after it, whatever follows |
| Handle.NewStack | internal/bot/handle.go:107-109 | the middleware is placed in front of the given stack |
| Handle.NewNopStack | internal/bot/handle.go:103-105 | the chain holds only the no-op |
| Handle.HandlerEndsStack | internal/bot/handle.go:67-77 | a handler added with UseHandler ends the run: anything registered after it never runs |
| Handle.UpsertFailureStops | internal/bot/handle.go:84-101 | behind pass-through middlewares a failing upsert is the last event |
| Handle.Stack.constructor | internal/bot/handle.go:55 | a new stack has no middlewares and no chain |
| Handle.Stack.Use | internal/bot/handle.go:62-65 | appends the middleware and rebuilds the chain from the whole list |
| Handle.Stack.UseHandler | internal/bot/handle.go:67-69 | appends the wrapped handler |
| Handle.Stack.Handle | internal/bot/handle.go:71-73 | before any Use the nil chain panics; afterwards the run is Dispatch's |
| Upsert.UserUpsertMiddleware.Handle | internal/bot/mwupsert.go:34-50 | the request carries sender id, chat and user name; a failure sends one error message and calls next zero times; success rebinds the context to the middleware's own context plus user_id and calls next once |
| Upsert.UserUpsertMiddleware.ErrorText | internal/bot/mwupsert.go:43 | the translated error_500 text followed by a newline |
| Service.UpsertRequest | internal/service/service.go:123-127 | the upserted row carries the sender's Telegram id, chat and name, with the other fields zero |
| Service.NewUser | internal/service/service.go:122-137 | on error the zero user and the error; otherwise id, Telegram id, chat and name copied from the stored row |
| Service.ToLocality | internal/service/service.go:147-152 | id, name, type and region name copied from the storage row |
| Service.AutocompleteLocality | internal/service/service.go:140-155 | an error passes through; otherwise one locality per row, in row order, with every field copied |
| Service.NewHelp | internal/service/service.go:158-168 | the insert gets the request's creator, category and locality, and its error is returned |
| Service.UserHelps | internal/service/service.go:171-183 | an error passes through; otherwise one entry per row, in order, with only the category id filled |
| Service.DeleteHelp | internal/service/service.go:186-188 | the storage delete's error is returned |
| Service.QueryFor | internal/service/service.go:210-215 | the village query exactly for VILLAGE and URBAN, otherwise the city query |
| Service.HelperChatsAll | internal/service/service.go:217-233 | when every creator lookup succeeds: one message per help, in order, addressed to that creator's chat |
| Service.HelperChatsAbort | internal/service/service.go:222-225 | any failing creator lookup aborts the fan-out |
| Service.NewRequest | internal/service/service.go:191-236 | an insert error returns before any lookup; otherwise the query follows the locality type, and messages are queued exactly when no error occurred, one per help |
| Service.UserRequests | internal/service/service.go:243-246 | the stub returns nothing and no error |
| Service.UserRequestByID | internal/service/service.go:249-252 | the stub returns the zero request and no error |
| Service.DeleteRequest | internal/service/service.go:255-258 | the stub returns no error |
| Session.MessageHandler.Get | internal/bot/volunteer.go:95 | the dialog of the chat, nil exactly when there is none |
| Session.MessageHandler.Delete | internal/bot/volunteer.go:88 | the chat's dialog is gone and every other chat keeps its dialog |
| Session.LocalityKeyboard | internal/bot/volunteer.go:187-190 | one button row per candidate, labelled "Name, RegionName" |
| Session.FindLocality | internal/bot/volunteer.go:211-221 | the first candidate whose label equals the text; None exactly when none does |
| Session.MatchLocality | internal/bot/volunteer.go:211-221 | the loop with its early return finds FindLocality's candidate |
| Session.FirstLocality | internal/bot/seeker.go:183-192 | an equal label with no equal label before it is the one chosen |
| VolunteerFlow.CategoryIDs | internal/bot/volunteer.go:247-250 | the ids of the selection, in selection order |
| VolunteerFlow.VolunteerUserRoleReply | internal/bot/volunteer.go:76-121 | missing user or count error changes nothing; at 2 helps the session is deleted with the limit message; otherwise a fresh volunteer with every field at its zero value and all boxes unticked, the checkbox step only once sent, the seeker payload kept |
| VolunteerFlow.VolunteerCategoryCheckboxReply | internal/bot/volunteer.go:123-172 | "next" with a selection moves to the locality step even if the send fails; any other text is Toggle, the reply lists the selection and offers "next" exactly when it is non-empty; the invariant holds after |
| VolunteerFlow.VolunteerLocalityTextReply | internal/bot/volunteer.go:174-208 | search error or no candidates leave the state; candidates are stored and the step advanced only once the offer is sent |
| VolunteerFlow.VolunteerLocalityButtonReply | internal/bot/volunteer.go:210-224 | the first exact match becomes the locality and the description is requested; no match reruns the text step |
| VolunteerFlow.VolunteerDescriptionTextReply | internal/bot/volunteer.go:226-268 | the description is stored; without a user id the session stays; otherwise the help is filed with the ids in selection order, the session deleted and the summary sent |
| SeekerFlow.CallbackData | internal/bot/seeker.go:49 | the command, then the vertical-bar separator, then the id, laid out in that order |
| SeekerFlow.CallbackRoundTrip | internal/bot/seeker.go:49 | the format decodes: a command without the separator and any id split back from the data (no source line splits it) |
| SeekerFlow.LastMatch | internal/bot/seeker.go:123-127 | the last category whose name equals the text, None when none does |
| SeekerFlow.SeekerUserRoleReply | internal/bot/seeker.go:70-118 | missing user or count error changes nothing; at 5 subscriptions the session is deleted and the limit message formatted with 2; otherwise a fresh seeker, every category offered once in order two per row, the step advancing only once sent, the volunteer payload kept |
| SeekerFlow.UserCategoryReply | internal/bot/seeker.go:120-144 | the last exact match is chosen, an earlier choice surviving no match; with no category only a prompt; otherwise the locality is requested and the step advances once sent |
| SeekerFlow.SeekerLocalityTextReply | internal/bot/seeker.go:146-178 | search error or no candidates leave the state; candidates are stored and the step advanced before the send, whatever it does |
| SeekerFlow.FirstFailure | internal/bot/seeker.go:217-232 | the first failing card send, None when every card went out |
| SeekerFlow.SendListing | internal/bot/seeker.go:199-242 | no helps: the empty notice with the subscribe button; otherwise cards up to and including the first failed one, the proposal and the subscription step only when every card was sent |
| SeekerFlow.SeekerLocalityButtonReply | internal/bot/seeker.go:180-243 | first exact match becomes the locality (a stale one survives); none at all reruns the text step; a query error keeps the step; otherwise the listing follows the "looking" notice |
| SeekerFlow.SeekerSubscriptionBtnReply | internal/bot/seeker.go:245-274 | other text is a no-op; already-exists is reported and keeps the session; any other error keeps it silently; success deletes the session and confirms |
| DialogFlow.RouteOf | internal/bot/dialog.go:126-154 | /start goes to the role request, any other command to "Error", a chat without a dialog to the role request, and otherwise the dialog's step |
| DialogFlow.HandleUpdate | internal/bot/dialog.go:126-154 | the route taken; another command sends "Error" and changes nothing; a role request replaces the dialog only once sent; a callback reaching a step handler panics |
| DialogFlow.RoleKeyboard | internal/bot/dialog.go:158-165 | two rows: the seeker label first, the volunteer label second |
| DialogFlow.UserRoleRequest | internal/bot/dialog.go:156-174 | the role keyboard (seeker row, volunteer row) is sent, and only then does the chat get a fresh dialog at the role-reply step, discarding the old one |
| DialogFlow.HandleUserRoleReply | internal/bot/dialog.go:176-214 | volunteer label: role volunteer, one unticked box per category in order, the checkbox step only once sent; unrecognised text: an error and no state change |
| DialogFlow.HandleVolunteerCategoryCheckbox | internal/bot/dialog.go:216-262 | "next" with a selection returns without any change or message; other text is Toggle with the selection listed and "next" offered exactly when non-empty |
| LocalityMigration.RemoveCommunities | migrations/locality/main.go:92-123 | the output is, as a multiset, every non-community locality moved from a community parent to that community's parent; its length is the non-community count; no community remains |
| LocalityMigration.BucketLocalities | migrations/locality/main.go:93-103 | communities map to their parents, every other locality lands once in its parent's bucket, in input order |
| LocalityMigration.AddLocality | migrations/locality/main.go:96-103 | one iteration of the first loop keeps the community map and every bucket equal to their reference definitions over the localities seen so far |
| LocalityMigration.MoveBuckets | migrations/locality/main.go:105-114 | whatever order the communities are visited in, each community's bucket keeps its key and every member gets the community's parent as parent; other buckets are untouched |
| LocalityMigration.ConcatBuckets | migrations/locality/main.go:116-122 | the output is every bucket once, in some order of distinct keys |
| LocalityMigration.VisitNext | migrations/locality/main.go:118-120 | one iteration of the last loop appends the bucket of a key not yet visited, keeping every visited key distinct |
| LocalityMigration.Reparent | migrations/locality/main.go:105-114 | only ParentID changes, to the community's parent when the parent is a community |
| LocalityMigration.NoCommunityLeft | migrations/locality/main.go:97-100 | no locality of the result is a community |
| LocalityMigration.CommunityParents | migrations/locality/main.go:96-100 | the map holds exactly the communities' ids, each mapped to the parent of the last community with that id |
| LocalityMigration.SetParent | migrations/locality/main.go:110-112 | every locality of the bucket gets the new parent, and nothing else changes |
| LocalityMigration.OneLevelOnly | migrations/locality/main.go:105-114 | for every input, a locality under community A (the last with its id) comes out with A's parent, whether or not that parent is itself a community |
| LocalityMigration.TopLevelKept | migrations/locality/main.go:105-114 | a locality whose parent is no community comes out unchanged |
| LocalityMigration.Emitted | migrations/locality/main.go:116-122 | concatenating all buckets in any order yields the reference result as a multiset |

The checkbox helpers of `dialog.go` (lines 70-112 and 264-291) are the same code as `volunteer.go`'s. The `Checkbox` members model both copies. `communitydrop/main.go` (lines 48-81) repeats `removeCommunities` inline, so `LocalityMigration` models both programs.

## Left out

- Telegram message bodies are left out: HTML, emoji items, `fmt` templates and keyboard flags. A message is a translation key or an abstract body, never the rendered text.
- The `time.Now` line of the volunteer summary is left out.
- `handleCmdMyHelp` and `handleCmdMySubscriptions` list stored items with a delete button. Only the callback-data format (`SeekerFlow.CallbackData`) is modelled. The listing loop is message formatting.
- `strings.Title(strings.ToLower(·))` is the `normalize` parameter of the volunteer locality search. Unicode case mapping has no counterpart here.
- The fuzzy locality search (SQL with Levenshtein distance) is the opaque `selectLocalities`. All other SQL is opaque storage results too.
- `uuid.UUID` values are `int`; the zero `int` stands for the zero UUID.
- Goroutines and channels are left out:
  - The background `NewHelp` of the description step is the `created` result.
  - The `helpMessageCh` send of `sendHelpMessages` is left out; the queued messages are `NewRequest`'s result.
  - The unsynchronised map race and mwinsert's no-op goroutine are left out.
- `mwrecovery.go` (`recover`) is left out. Go panics are a `panicked` flag where the code can reach them.
- Where Go would dereference a nil value or relies on its environment, the handler `requires` it instead of modelling the panic:
  - the chat's dialog exists;
  - the volunteer or seeker payload is present;
  - the flows' handlers are reached only at the steps that lead to them;
  - the volunteer and seeker step handlers are reached only with a text message (`u.message.Some?`). Go reads `u.Message.Text` and would panic on a callback update. Only `DialogFlow.HandleUpdate` models that panic;
  - the upsert middleware's update has a sender (`User(u).Some?`). A nil sender would make the user lookup panic;
  - the categories have distinct ids (`Valid()`, that is `IdsDistinct`). The Go never checks this. The ids are the key of the category table, so they are distinct in storage, but no visible line guarantees it.
- `m.dialogs.get`/`delete` and `u.userID` are not part of the visible source. They are modelled as map lookup, map removal and the `user_id` context value.
- `u.userUUID()` (mwupsert.go) is not part of the visible source. It is modelled as `Handle.User`.
- `seekerUserRoleReply`, called by dialog.go's role reply, is not part of the visible source.
  - DialogFlow.HandleUserRoleReply: for the seeker label it returns the error given as `seekerErr` and states nothing about the state.
  - dialog.go's translation keys (`userRoleRequestTranslation`, `nextButtonTr`, ...) are not defined in any visible file. Their texts are the handler's `tr` input.
- DialogFlow.HandleUpdate: for a dispatched update the contract states the route and keeps the dialog map. What the step handler does is stated by that handler's own contract.
- The empty `seeker` struct of dialog.go is never assigned and is not modelled.
- SeekerFlow.SeekerUserRoleReply: it ensures the dialog invariant only when the prompt was sent or the dialog was not in a seeker step. A failed send leaves `next` at its old value next to a fresh, empty seeker.
- `Meta.OsmID` (an untyped JSON value), `Lng` and `Lat` (floats) are left out of the migration's `locality`. So are the JSON decoding, the DB transaction and the file output around it.
- Bootstrap, configuration, the update loop and `GetCategories` are left out; the categories are given to the handler.
