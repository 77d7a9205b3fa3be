# tldr-email core, modelled in Dafny

tldr-email is a terminal mail client. Key presses in the user interface
(`App`) move selections through accounts, folders, pages of envelopes and
messages. Each move sends an intent (`Actions`) to a background executor.
The executor coalesces those intents by variant in a debouncer set. Every
cycle it drains the set, runs the listing actions against the mail backends,
and writes the results into per-login cache slots. It clears the busy flag
when no new intent has arrived. Accounts come from `login:password`
command-line arguments.

The model has six modules:

- `Wrappers`: `Option` and `Result`.
- `Actions`: the four intents and their identity. Equality and hashing look only
  at the variant, so there are four classes.
- `MailBackend`: folders, envelopes and the results a backend returns. These
  results are inputs to the model.
- `State`: the account store (`add_account`, `as_terminal_state`) and the
  per-login cache slots with the busy flag. The ghost `writes` log records the
  order in which the slots are written.
- `Args`: splitting an account string on `:` and building the initial state
  from the argument list.
- `Email`: the debouncer (`replace`, `len`, `drain`) and `execute_action`.
  - One executor cycle is the method `Cycle`: drain, execute, sleep, then clear
    the busy flag if the set is empty.
  - The intents that arrive while it sleeps are a parameter of `Cycle`.
- `App`: the navigation state machine.
  - Each handler is first a function on the value `AppState`, and the
    handler's properties are stated on that function.
  - The class `App` has the fields of the Rust struct. Each of its methods is
    proved to leave `Snapshot()` equal to that function applied to the old
    snapshot.
  - The actions channel is the `outbox` sequence.
  - A `ListState`/`TableState` is kept as the selected row it shows.

## Model

| member | source | states |
|---|---|---|
| Actions.Discriminant | src/actions.rs:31 | each variant maps to its own kind, in both directions |
| Actions.HashCode | src/actions.rs:37-41 | the hash depends only on the discriminant and takes one of four values |
| Actions.Representative | src/actions.rs:7-27 | every kind has an action of that variant |
| Actions.EqIffSameVariant | src/actions.rs:29-33 | two actions are equal exactly when they are the same variant |
| Actions.PayloadIgnored | src/actions.rs:11-33 | `ListEnvelopes`, `GetMessage` and `ListFolders` with different login, folder, page or id still compare equal |
| Actions.EqIsEquivalence | src/actions.rs:29-35 | equality is reflexive, symmetric and transitive |
| Actions.HashAgreesWithEq | src/actions.rs:37-41 | equal actions hash equally, and actions that hash equally are equal |
| Actions.FourClasses | src/actions.rs:7-27 | there are exactly four equality classes, one per variant |
| MailBackend.FolderNames | src/email.rs:258 | the cached folder list holds the backend's folder names in backend order |
| State.State.constructor | src/state.rs:17-21 | a new state has no accounts, empty cache slots and is not busy |
| State.State.AddAccount | src/state.rs:24-29 | the account is appended at the end, the length grows by one, and earlier accounts are unchanged and in order |
| State.State.AsTerminalState | src/state.rs:31-35 | the snapshot's accounts equal the stored sequence, and the store is not modified |
| State.State.SetFolders | src/email.rs:246-250 | the folders slot of `login` is overwritten with the new value and the write is logged |
| State.State.SetEnvelopes | src/email.rs:267-271 | the envelopes slot of `login` is overwritten with the new value and the write is logged |
| State.State.SetUpdating | src/email.rs:107 | the busy flag takes the given value |
| Args.Split | src/args.rs:26 | `split(':')` gives one more piece than there are separators, and no piece contains a separator |
| Args.JoinSplit | src/args.rs:26 | joining the pieces of a split with the separator rebuilds the original string |
| Args.SplitJoin | src/args.rs:26 | splitting separator-free pieces joined by the separator gives back those pieces |
| Args.ParseAccount | src/args.rs:26-33 | an account string is accepted exactly when it contains one colon; otherwise it gives the invalid-format error |
| Args.ParsedAccountRebuilds | src/args.rs:26-33 | an accepted string is login, colon, password, and neither part contains a colon |
| Args.ParseAccountRoundTrip | src/args.rs:26-33 | any colon-free login and password, either possibly empty (`"a:"`), parse back to themselves |
| Args.ParseAll | src/args.rs:25-35 | the accounts are parsed in argument order, and the first malformed string aborts the parse; `Args.ParseAllSpec` and `Args.FirstMalformedAborts` prove this for all inputs |
| Args.ParseAccounts | src/args.rs:21-37 | an empty argument list is rejected with the no-accounts error |
| Args.ParseAllSpec | src/args.rs:25-35 | parsing succeeds exactly when every string is well formed; then the i-th account comes from the i-th string, and every failure is the invalid-format error |
| Args.FirstMalformedAborts | src/args.rs:25-30 | if the first malformed string is at position k, the result is the invalid-format error |
| Args.GetInitialStateFromArgs | src/args.rs:16-38 | the loop fails exactly when parsing fails, with the same error; on success it returns a fresh state whose accounts are the parsed ones in order, with empty cache slots and the busy flag clear |
| Email.Insert | src/email.rs:92 | `replace` stores the new action under its kind (newest wins), leaves every other kind's entry alone, and keeps at most one action per kind |
| Email.LastOfKind | src/email.rs:90-93 | the last action of a kind in the incoming sequence exists exactly when some action of that kind arrived |
| Email.InsertAllLastWins | src/email.rs:90-93 | after a run of `replace`s each kind holds the last action of that kind to arrive, or its old entry if none arrived |
| Email.InsertAllCoalesced | src/email.rs:90-93 | any run of `replace`s keeps at most one pending action per kind |
| Email.InsertAllEmpty | src/email.rs:90-93 | starting from an empty set, the set stays empty exactly when nothing arrives |
| Email.PendingBounded | src/email.rs:92 | the pending set never holds more than four actions, and no two of them compare equal |
| Email.SameKindSupersedes | src/email.rs:92 | replacing with `a` and then with an equal `b` is the same as replacing with `b` alone |
| Email.Debouncer.constructor | src/email.rs:87 | the debouncer starts empty |
| Email.Debouncer.Replace | src/email.rs:92 | the pending set becomes `Insert` of the old set and the action |
| Email.Debouncer.Len | src/email.rs:106 | the length is the number of pending actions, and it is zero exactly when the set is empty |
| Email.Debouncer.Drain | src/email.rs:99 | afterwards the set is empty, and the drained sequence holds each pending action exactly once |
| Email.Receive | src/email.rs:90-93 | the receive loop leaves the set as the fold of `replace` over the arrivals |
| Email.CacheAfter | src/email.rs:245-292 | `ListFolders` stores the backend's folder names for its login, and `ListEnvelopes` stores the page asked for with page size 10 for its login; every other login's slots are unchanged, and the other two variants change nothing |
| Email.SlotWrites | src/email.rs:245-292 | a listing action writes its login's slot twice: first `None`, then `Some` of exactly what the backend returned (the folder names, or the requested page of envelopes) |
| Email.ExecuteAction | src/email.rs:239-294 | executing an action leaves the cache as `CacheAfter` says and appends exactly `SlotWrites` to the write log; it requires the login's backend to exist and its call to succeed |
| Email.LastWriteIsCached | src/email.rs:245-292 | the last write a listing action logs is the value its slot holds afterwards |
| Email.CacheAfterAllOrderFree | src/email.rs:99-101 | executing distinct-kind actions from a coalesced set in any order gives the same cache |
| Email.EnumeratesKinds | src/email.rs:99-101 | a drained sequence covers exactly the kinds that were pending |
| Email.ExecuteAll | src/email.rs:99-101 | executing the drained actions in sequence composes their cache effects and write logs |
| Email.Cycle | src/email.rs:98-109 | one cycle executes every pending action exactly once, in an order-free way; the set then holds only what arrived during the sleep; the busy flag is cleared exactly when nothing arrived, otherwise left as it was |
| App.NextIndex | src/app.rs:285-289 | the next row wraps from the last to 0 and otherwise adds one, staying in range |
| App.PreviousIndex | src/app.rs:260-264 | the previous row wraps from 0 to the last and otherwise subtracts one, staying in range |
| App.WrapInverse | src/app.rs:255-303 | stepping back undoes stepping forward and vice versa |
| App.ClearedFolders | src/app.rs:688-692 | clears the folder selection, its widget state and the folder list, and nothing else |
| App.ClearedMessages | src/app.rs:694-699 | clears the message selection, its widget state and the envelope list, resets the page to 0, and nothing else |
| App.ClearedMessage | src/app.rs:701-703 | clears the open message and nothing else |
| App.SwitchAccount | src/app.rs:265-278 | selects the row, clears the folder, envelope and message panes, and sends exactly one `ListFolders` for that row's login when the row exists, otherwise nothing |
| App.FirstAccount | src/app.rs:237-253 | selects row 0 and clears the folder, envelope and message panes. It sends one `ListFolders` for the first login when there is an account and nothing otherwise. The focus, form and account list are unchanged, and the invariant holds afterwards |
| App.PreviousAccount | src/app.rs:255-278 | no selection: nothing changes; otherwise row 0 wraps to the last and any other row moves up one, staying below the number of accounts; panes are cleared and one `ListFolders` is sent; the invariant is kept |
| App.NextAccount | src/app.rs:280-303 | the last row wraps to 0 and any other row moves down one, staying in range; panes are cleared and one `ListFolders` is sent; the invariant is kept |
| App.AccountRoundTrip | src/app.rs:255-303 | next account then previous account returns to the account that was selected |
| App.AccountKeysDefined | src/app.rs:255-303 | under the invariant, Up and Down in the account pane never reach the empty-list subtraction |
| App.SwitchFolder | src/app.rs:371-382 | selects the folder row and clears the envelope and message panes. The account selection and folder list are unchanged, and `ListEnvelopes` for page 0 is sent |
| App.FirstFolderIfNotSelected | src/app.rs:305-342 | with a folder list shown and no row selected, selects row 0. When both the account and the first folder exist, it also clears the envelopes and requests page 0 of that folder. In every case the account selection and the folder list are unchanged, and in the other cases nothing else changes |
| App.PreviousFolder | src/app.rs:344-383 | without an account login, a folder row or a folder list, nothing changes. Otherwise the row wraps upward, the envelope and message panes are cleared, and page 0 of the new folder is requested. The account selection and the folder list are always unchanged |
| App.NextFolder | src/app.rs:385-424 | without an account login, a folder row or a folder list, nothing changes. Otherwise the row wraps downward, the envelope and message panes are cleared, and page 0 of the new folder is requested. The account selection and the folder list are always unchanged |
| App.FolderRoundTrip | src/app.rs:344-424 | next folder then previous folder returns to the folder row that was selected |
| App.EmptyFolderListUnderflows | src/app.rs:305-424 | an empty folder list still gets row 0 selected, while the invariant holds, and then Up or Down in the folder pane reaches the subtraction on an empty list |
| App.SwitchMessage | src/app.rs:496-540 | selects the message row, clears the open message, keeps the page and envelope list, and sends `GetMessage` with that envelope's id when account, folder and envelope exist |
| App.FirstMessageIfNotSelected | src/app.rs:426-475 | with envelopes shown and no row selected, selects row 0 and clears the open message. It requests that message when it can be named and sends nothing otherwise. The envelopes, the page and the account and folder selections are unchanged |
| App.PreviousMessage | src/app.rs:477-540 | without a selected row, or with no or empty envelopes, nothing changes. Otherwise the row wraps upward, the open message is cleared, and the new envelope's message is requested; nothing is sent when account, folder or envelope is missing. The envelopes, page and selections are unchanged |
| App.NextMessage | src/app.rs:542-605 | without a selected row, or with no or empty envelopes, nothing changes. Otherwise the row wraps downward, the open message is cleared, and the new envelope's message is requested; nothing is sent when account, folder or envelope is missing. The envelopes, page and selections are unchanged |
| App.MessageRoundTrip | src/app.rs:477-605 | next message then previous message returns to the row that was selected |
| App.SwitchPage | src/app.rs:633-643 | sets the page, clears the table selection and envelopes, and sends `ListEnvelopes` for that page. The open message, the folder list and the account and folder selections are unchanged |
| App.PreviousMessagePage | src/app.rs:607-644 | a no-op on page 0 or without a selected account and folder. Otherwise the page decreases by one, the table is cleared, and that page is requested. The open message, the folder list and the selections are always kept |
| App.NextMessagePage | src/app.rs:646-686 | moves on only from a page of a selected folder holding exactly 10 envelopes. Then the page increases by one, the table is cleared, and that page is requested; otherwise nothing changes and nothing is sent. The open message, the folder list and the selections are always kept |
| App.PageRoundTrip | src/app.rs:607-686 | next page then previous page returns to the page number it left |
| App.SendWidgetCycle | src/app.rs:217-231 | focus cycles To, Subject, Text; previous is the inverse of next, and three steps and no fewer return to the start |
| App.Typed | src/app.rs:169-173 | a typed character is appended to the focused field, and only that field changes |
| App.Erased | src/app.rs:174-190 | Backspace drops the last character of the focused field when it is non-empty, and otherwise changes nothing |
| App.SendKey | src/app.rs:159-192 | gives the whole new state for every key in the send form. Esc empties all three fields and focuses Accounts. Tab and BackTab only cycle the focus. A character or Backspace edits only the focused field, and Backspace on an empty field changes nothing. Other keys change nothing. Nothing is sent and the exit flag is unchanged |
| App.ListKey | src/app.rs:114-157 | 'q' sets only the exit flag, 'x' changes nothing, and '1'-'4' and 's' change only the focus. Every other key goes to the focused pane's handler, and the message pane ignores it. Navigation keys are never shared keys, the send fields are untouched, at most one action is sent, and the invariant is kept |
| App.AccountsKey | src/app.rs:122-123 | Up/'k' runs `PreviousAccount` and Down/'j' runs `NextAccount`; other keys change nothing |
| App.FoldersKey | src/app.rs:133-134 | Up/'k' runs `PreviousFolder` and Down/'j' runs `NextFolder`; other keys change nothing |
| App.MessagesKey | src/app.rs:144-147 | Up/Down/'k'/'j' run the message handlers and Left/'p' and Right/'n' run the page handlers; other keys change nothing |
| App.ListKeyDispatch | src/app.rs:114-157 | in each pane, each navigation key gives exactly that pane's handler applied to the state; in the accounts and folders panes the page keys, and in the message pane every navigation key, change nothing |
| App.KeyEvent | src/app.rs:113-194 | any key sends at most one action, appended after the earlier ones, and keeps the invariant |
| App.RunKeysKeepsInv | src/app.rs:113-194 | over any sequence of key presses the invariant holds, the outbox only grows, and it grows by at most one action per key |
| App.App.constructor | src/app.rs:33-57 | the default application: accounts pane and To field focused, nothing selected, page 0, empty form, not exiting, nothing sent |
| App.App.MarkAndSend | src/app.rs:274-277 | marks the state as updating and appends the action to the outbox |
| App.App.ClearFolders | src/app.rs:688-692 | performs `ClearedFolders` on the fields |
| App.App.ClearMessages | src/app.rs:694-699 | performs `ClearedMessages` on the fields |
| App.App.ClearMessage | src/app.rs:701-703 | performs `ClearedMessage` on the fields |
| App.App.SelectWidget | src/app.rs:197-215 | focuses the given widget and changes nothing else |
| App.App.SelectPreviousSendWidget | src/app.rs:217-223 | moves the send-form focus back one step in the cycle and changes nothing else |
| App.App.SelectNextSendWidget | src/app.rs:225-231 | moves the send-form focus forward one step in the cycle and changes nothing else |
| App.App.Exit | src/app.rs:233-235 | sets the exit flag and changes nothing else |
| App.App.ChangeAccount | src/app.rs:265-278 | performs `SwitchAccount` on the fields |
| App.App.SelectFirstAccount | src/app.rs:237-253 | performs `FirstAccount` on the fields |
| App.App.SelectPreviousAccount | src/app.rs:255-278 | performs `PreviousAccount` on the fields; requires a non-empty account list when row 0 is selected |
| App.App.SelectNextAccount | src/app.rs:280-303 | performs `NextAccount` on the fields; requires a non-empty account list when a row is selected |
| App.App.ChangeFolder | src/app.rs:371-382 | performs `SwitchFolder` on the fields |
| App.App.SelectFirstFolderIfNotSelected | src/app.rs:305-342 | performs `FirstFolderIfNotSelected` on the fields |
| App.App.SelectPreviousFolder | src/app.rs:344-383 | performs `PreviousFolder` on the fields; requires a non-empty folder list when row 0 is reached |
| App.App.SelectNextFolder | src/app.rs:385-424 | performs `NextFolder` on the fields; requires a non-empty folder list once past the early returns |
| App.App.ChangeMessage | src/app.rs:496-540 | performs `SwitchMessage` on the fields |
| App.App.SelectFirstMessageIfNotSelected | src/app.rs:426-475 | performs `FirstMessageIfNotSelected` on the fields |
| App.App.SelectPreviousMessage | src/app.rs:477-540 | performs `PreviousMessage` on the fields |
| App.App.SelectNextMessage | src/app.rs:542-605 | performs `NextMessage` on the fields |
| App.App.SelectPreviousMessagePage | src/app.rs:607-644 | performs `PreviousMessagePage` on the fields |
| App.App.SelectNextMessagePage | src/app.rs:646-686 | performs `NextMessagePage` on the fields |
| App.App.HandleSendKey | src/app.rs:159-192 | performs `SendKey` on the fields |
| App.App.HandleCommonKey | src/app.rs:115-157 | reports whether the key is quit, the web-page key or a focus change, and if so performs it |
| App.App.HandleListKey | src/app.rs:114-157 | performs `ListKey` on the fields |
| App.App.HandleKeyEvent | src/app.rs:113-194 | performs `KeyEvent` on the fields |

## Left out

- Rendering (`ui`, `draw`), the terminal loop `run`, crossterm polling in `handle_events`, and `main`'s task wiring are not modelled. They are I/O.
- The loop in `run` reads the shared view and forwards `should_mark_state_as_updating` into the busy flag. Both are reads and writes of shared async state and are not modelled. The `App` model only records the mark.
- `ads_remove` opens a web browser. The 'x' key is modelled as leaving the application state unchanged.
- Backend construction (`EmailBackend::new`, `build_imap`, `build_smtp`), IMAP/SMTP, TLS and autoconfiguration are not modelled. A backend is the pair of results its folder and envelope listings return.
- Tokio tasks, channels, `RwLock` and the sleep durations are not modelled. One executor cycle is a sequential step.
  - Intents that arrive while the executor sleeps are an input sequence of `Cycle`.
  - Intents that arrive during a drain are not modelled.
- The intermediate `None` in a cache slot can only be seen by a concurrent reader. The model records it in the ghost `writes` log instead.
- Email.ExecuteAction: a failed listing or a login without a backend is not modelled; `Executable` requires the backend and a successful call. In the program the slot is left `None` and the executor task panics on `unwrap` (src/email.rs:252, 258, 273, 291).
- Email.ExecuteAction: for `GetMessage` and `SendMessage` the executor's match has no arms, so the model leaves the cache unchanged for them.
- State fields other than accounts are not in `src/state.rs`: the folder and envelope caches, the busy flag, the open message and `as_view_state`. The caches are per-login maps of optional slots and the busy flag is a boolean. The open message slot and the view projection are not modelled.
- clap's `Args::parse` and the `Secret` wrapper are not modelled. Arguments are a sequence of strings and passwords are plain strings.
- Email.Cycle: clears the busy flag only when the set is empty after the sleep (src/email.rs:104-108).
- App.App.SelectPreviousFolder and App.App.SelectNextFolder: a folder list that comes back empty makes `len() - 1` underflow, so both require a non-empty list past the early returns. `App.EmptyFolderListUnderflows` shows that the invariant does not rule this state out.
- App.App.SelectPreviousAccount and App.App.SelectNextAccount: these require a non-empty account list. `App.AccountKeysDefined` shows that the invariant guarantees it.
- Widget states are not modelled beyond the selected row they show. Scroll offsets are rendering state.
- Page numbers and indices are unbounded naturals. `usize` overflow of the page counter is not modelled.
