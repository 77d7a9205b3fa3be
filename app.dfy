/**
  The terminal application's navigation state (src/app.rs).

  `App` keeps the selected account, folder and message, the page of
  envelopes, the view it renders, the three send-form fields, the focused
  widget and the exit flag. Key handlers move the selections with
  wrap-around, clear the panes that depend on them, and send actions to the
  executor; the channel is the `outbox` sequence the handlers append to.
  Ratatui's `ListState`/`TableState` keep only the selected row here.

  The transitions are first defined as functions on the value `AppState`,
  where their properties are stated; the class `App` then performs them
  field by field and is proved to agree with them.
 */
module App {
  import opened Wrappers
  import opened Actions
  import opened State
  import Email

  datatype SelectedWidget = Accounts | Folders | Messages | Message | Send

  datatype SelectedSendWidget = To | Subject | Text

  /** The keys the handler distinguishes; `Other` is every other key. */
  datatype KeyCode = Char(c: char) | Up | Down | Left | Right | Esc | Tab | BackTab | Backspace | Other

  /** Every field of `App`, as a value. */
  datatype AppState = AppState(
    selectedWidget: SelectedWidget,
    selectedSendWidget: SelectedSendWidget,
    accountsListState: Option<nat>,
    accountsListSelected: Option<nat>,
    foldersListState: Option<nat>,
    foldersListSelected: Option<nat>,
    messagesTableState: Option<nat>,
    messagesTableSelected: Option<nat>,
    messagesTablePage: nat,
    viewState: ViewState,
    shouldMarkStateAsUpdating: bool,
    sendTo: string,
    sendSubject: string,
    sendText: string,
    exit: bool,
    outbox: seq<Action>)

  /** `App::default()` with the given view. */
  function Initial(view: ViewState): AppState {
    AppState(Accounts, To, None, None, None, None, None, None, 0, view, false, [], [], [], false, [])
  }

  // ---------------------------------------------------------------------------
  // Indices, lookups and the facts every transition keeps

  /** `Vec::get`. */
  function Get<T>(s: seq<T>, i: nat): (r: Option<T>)
    ensures r.Some? <==> i < |s|
    ensures r.Some? ==> r.value == s[i]
  {
    if i < |s| then Some(s[i]) else None
  }

  /** The row after `i`, wrapping from the last to the first; `len - 1` needs a
      non-empty list. */
  function NextIndex(i: nat, len: nat): (j: nat)
    requires len > 0
    ensures i < len ==> j < len
    ensures i == len - 1 ==> j == 0
    ensures i < len - 1 ==> j == i + 1
  {
    if i == len - 1 then 0 else i + 1
  }

  /** The row before `i`, wrapping from the first to the last; `len - 1` is
      computed only when `i` is 0. */
  function PreviousIndex(i: nat, len: nat): (j: nat)
    requires i == 0 ==> len > 0
    ensures i < len ==> j < len
    ensures i == 0 ==> j == len - 1
    ensures 0 < i ==> j == i - 1
  {
    if i == 0 then len - 1 else i - 1
  }

  /** Within range, stepping back undoes stepping forward and vice versa. */
  lemma WrapInverse(i: nat, len: nat)
    requires i < len
    ensures PreviousIndex(NextIndex(i, len), len) == i
    ensures NextIndex(PreviousIndex(i, len), len) == i
  {
  }

  /** The login of the selected account, when the selection names one. */
  function SelectedLogin(s: AppState): Option<string> {
    match s.accountsListSelected
    case None => None
    case Some(i) => Get(s.viewState.accounts, i)
  }

  /** The name of the selected folder, when the selection names one. */
  function SelectedFolder(s: AppState): Option<string> {
    if s.viewState.folders.None? || s.foldersListSelected.None? then None
    else Get(s.viewState.folders.value, s.foldersListSelected.value)
  }

  /** Each widget state shows exactly the row its `*_selected` field names. */
  predicate Mirrored(s: AppState) {
    && s.accountsListState == s.accountsListSelected
    && s.foldersListState == s.foldersListSelected
    && s.messagesTableState == s.messagesTableSelected
  }

  /** The invariant the application keeps once an account is selected. */
  predicate Inv(s: AppState) {
    Mirrored(s) && (s.accountsListSelected.Some? ==> s.accountsListSelected.value < |s.viewState.accounts|)
  }

  /** What navigation never touches: focus, the send form, the exit flag and the account list. */
  predicate SameOutsideNavigation(s: AppState, r: AppState) {
    && r.selectedWidget == s.selectedWidget
    && r.selectedSendWidget == s.selectedSendWidget
    && r.sendTo == s.sendTo && r.sendSubject == s.sendSubject && r.sendText == s.sendText
    && r.exit == s.exit
    && r.viewState.accounts == s.viewState.accounts
  }

  /** The account selection is as it was. */
  predicate AccountKept(s: AppState, r: AppState) {
    r.accountsListSelected == s.accountsListSelected && r.accountsListState == s.accountsListState
  }

  /** The account selection, the folder list and the folder selection are as they were. */
  predicate FolderKept(s: AppState, r: AppState) {
    && AccountKept(s, r)
    && r.viewState.folders == s.viewState.folders
    && r.foldersListSelected == s.foldersListSelected && r.foldersListState == s.foldersListState
  }

  predicate FoldersCleared(r: AppState) {
    r.foldersListState.None? && r.foldersListSelected.None? && r.viewState.folders.None?
  }

  predicate MessagesCleared(r: AppState) {
    r.messagesTableState.None? && r.messagesTableSelected.None? && r.messagesTablePage == 0 &&
    r.viewState.messages.None?
  }

  /** `a` was sent, as the only new action, with the state marked as updating. */
  predicate Emitted(s: AppState, r: AppState, a: Action) {
    r.outbox == s.outbox + [a] && r.shouldMarkStateAsUpdating
  }

  /** Nothing was sent and the updating mark is as it was. */
  predicate Silent(s: AppState, r: AppState) {
    r.outbox == s.outbox && r.shouldMarkStateAsUpdating == s.shouldMarkStateAsUpdating
  }

  /** The outbox is unchanged or gained exactly one action at its end. */
  predicate SentAtMostOne(s: AppState, r: AppState) {
    r.outbox == s.outbox || (|r.outbox| == |s.outbox| + 1 && r.outbox[..|s.outbox|] == s.outbox)
  }

  // ---------------------------------------------------------------------------
  // Clearing and sending

  /** `clear_folders`. */
  function ClearedFolders(s: AppState): (r: AppState)
    ensures FoldersCleared(r)
    ensures r.(foldersListState := s.foldersListState, foldersListSelected := s.foldersListSelected,
               viewState := s.viewState) == s
    ensures r.viewState.(folders := s.viewState.folders) == s.viewState
  {
    s.(foldersListState := None, foldersListSelected := None, viewState := s.viewState.(folders := None))
  }

  /** `clear_messages`: also returns to the first page. */
  function ClearedMessages(s: AppState): (r: AppState)
    ensures MessagesCleared(r)
    ensures r.(messagesTableState := s.messagesTableState, messagesTableSelected := s.messagesTableSelected,
               messagesTablePage := s.messagesTablePage, viewState := s.viewState) == s
    ensures r.viewState.(messages := s.viewState.messages) == s.viewState
  {
    s.(messagesTableState := None, messagesTableSelected := None, messagesTablePage := 0,
       viewState := s.viewState.(messages := None))
  }

  /** `clear_message`. */
  function ClearedMessage(s: AppState): (r: AppState)
    ensures r.viewState.message.None?
    ensures r.(viewState := s.viewState) == s && r.viewState.(message := s.viewState.message) == s.viewState
  {
    s.(viewState := s.viewState.(message := None))
  }

  /** Mark the state as updating and send `a`. */
  function Emit(s: AppState, a: Action): AppState {
    s.(shouldMarkStateAsUpdating := true, outbox := s.outbox + [a])
  }

  // ---------------------------------------------------------------------------
  // Accounts

  /** The common tail of the account handlers: select row `j`, clear the folder,
      envelope and message panes, then ask for the folders of the account at `j`. */
  function SwitchAccount(s: AppState, j: nat): (r: AppState)
    ensures r.accountsListSelected == Some(j) && r.accountsListState == Some(j)
    ensures FoldersCleared(r) && MessagesCleared(r) && r.viewState.message.None?
    ensures SameOutsideNavigation(s, r)
    ensures j < |s.viewState.accounts| ==> Emitted(s, r, ListFolders(s.viewState.accounts[j]))
    ensures j >= |s.viewState.accounts| ==> Silent(s, r)
  {
    var t := ClearedMessage(ClearedMessages(ClearedFolders(s.(accountsListSelected := Some(j), accountsListState := Some(j)))));
    match Get(t.viewState.accounts, j)
    case Some(login) => Emit(t, ListFolders(login))
    case None => t
  }

  /** `select_first_account`. */
  function FirstAccount(s: AppState): (r: AppState)
    ensures r.accountsListSelected == Some(0) && r.accountsListState == Some(0)
    ensures FoldersCleared(r) && MessagesCleared(r) && r.viewState.message.None?
    ensures SameOutsideNavigation(s, r)
    ensures |s.viewState.accounts| > 0 ==> Emitted(s, r, ListFolders(s.viewState.accounts[0]))
    ensures |s.viewState.accounts| == 0 ==> Silent(s, r)
    ensures |s.viewState.accounts| > 0 && Mirrored(s) ==> Inv(r)
  {
    SwitchAccount(s, 0)
  }

  predicate PreviousAccountDefined(s: AppState) {
    s.accountsListSelected == Some(0) ==> |s.viewState.accounts| > 0
  }

  /** `select_previous_account`: from row 0 to the last row, otherwise one up. */
  function PreviousAccount(s: AppState): (r: AppState)
    requires PreviousAccountDefined(s)
    ensures s.accountsListSelected.None? ==> r == s
    ensures s.accountsListSelected.Some? ==>
      var i, n := s.accountsListSelected.value, |s.viewState.accounts|;
      && r.accountsListSelected == Some(if i == 0 then n - 1 else i - 1)
      && (i < n ==> r.accountsListSelected.value < n && Emitted(s, r, ListFolders(s.viewState.accounts[r.accountsListSelected.value])))
      && FoldersCleared(r) && MessagesCleared(r) && r.viewState.message.None?
    ensures SameOutsideNavigation(s, r) && SentAtMostOne(s, r)
    ensures Inv(s) ==> Inv(r)
  {
    match s.accountsListSelected
    case None => s
    case Some(i) => SwitchAccount(s, PreviousIndex(i, |s.viewState.accounts|))
  }

  predicate NextAccountDefined(s: AppState) {
    s.accountsListSelected.Some? ==> |s.viewState.accounts| > 0
  }

  /** `select_next_account`: from the last row to row 0, otherwise one down. */
  function NextAccount(s: AppState): (r: AppState)
    requires NextAccountDefined(s)
    ensures s.accountsListSelected.None? ==> r == s
    ensures s.accountsListSelected.Some? ==>
      var i, n := s.accountsListSelected.value, |s.viewState.accounts|;
      && r.accountsListSelected == Some(if i == n - 1 then 0 else i + 1)
      && (i < n ==> r.accountsListSelected.value < n && Emitted(s, r, ListFolders(s.viewState.accounts[r.accountsListSelected.value])))
      && FoldersCleared(r) && MessagesCleared(r) && r.viewState.message.None?
    ensures SameOutsideNavigation(s, r) && SentAtMostOne(s, r)
    ensures Inv(s) ==> Inv(r)
  {
    match s.accountsListSelected
    case None => s
    case Some(i) => SwitchAccount(s, NextIndex(i, |s.viewState.accounts|))
  }

  // ---------------------------------------------------------------------------
  // Folders

  /** The common tail of the folder handlers: select folder row `j`, clear the
      envelope and message panes, then ask for page 0 of that folder. */
  function SwitchFolder(s: AppState, login: string, folder: string, j: nat): (r: AppState)
    ensures r.foldersListSelected == Some(j) && r.foldersListState == Some(j)
    ensures MessagesCleared(r) && r.viewState.message.None?
    ensures r.viewState.folders == s.viewState.folders && AccountKept(s, r)
    ensures SameOutsideNavigation(s, r)
    ensures Emitted(s, r, ListEnvelopes(login, folder, 0))
  {
    Emit(ClearedMessage(ClearedMessages(s.(foldersListSelected := Some(j), foldersListState := Some(j)))),
         ListEnvelopes(login, folder, 0))
  }

  /** `select_first_folder_if_not_selected`: once a folder list is shown with no
      row selected, select row 0 and, when that folder exists, list its first page. */
  function FirstFolderIfNotSelected(s: AppState): (r: AppState)
    ensures !(s.foldersListSelected.None? && s.viewState.folders.Some?) ==> r == s
    ensures s.foldersListSelected.None? && s.viewState.folders.Some? ==>
      r.foldersListSelected == Some(0) && r.foldersListState == Some(0) &&
      if SelectedLogin(s).Some? && |s.viewState.folders.value| > 0 then
        MessagesCleared(r) && r.viewState.message.None? &&
        Emitted(s, r, ListEnvelopes(SelectedLogin(s).value, s.viewState.folders.value[0], 0))
      else
        r == s.(foldersListSelected := Some(0), foldersListState := Some(0))
    ensures AccountKept(s, r) && r.viewState.folders == s.viewState.folders
    ensures SameOutsideNavigation(s, r) && SentAtMostOne(s, r)
    ensures Inv(s) ==> Inv(r)
  {
    if !(s.foldersListSelected.None? && s.viewState.folders.Some?) then s
    else
      var t := s.(foldersListSelected := Some(0), foldersListState := Some(0));
      match SelectedLogin(t)
      case None => t
      case Some(login) =>
        match Get(t.viewState.folders.value, 0)
        case None => t
        case Some(folder) => SwitchFolder(t, login, folder, 0)
  }

  /** The folder handlers go past their early returns: an account with a login
      is selected, a folder row is selected and a folder list is shown. */
  predicate FolderReady(s: AppState) {
    SelectedLogin(s).Some? && s.foldersListSelected.Some? && s.viewState.folders.Some?
  }

  predicate PreviousFolderDefined(s: AppState) {
    FolderReady(s) && s.foldersListSelected == Some(0) ==> |s.viewState.folders.value| > 0
  }

  /** `select_previous_folder`: wraps within the folder list; nothing changes
      unless a folder exists at the new row. */
  function PreviousFolder(s: AppState): (r: AppState)
    requires PreviousFolderDefined(s)
    ensures !FolderReady(s) ==> r == s
    ensures FolderReady(s) ==>
      var folders, i := s.viewState.folders.value, s.foldersListSelected.value;
      var j := if i == 0 then |folders| - 1 else i - 1;
      if 0 <= j < |folders| then
        r.foldersListSelected == Some(j) && r.foldersListState == Some(j) && MessagesCleared(r) && r.viewState.message.None? &&
        Emitted(s, r, ListEnvelopes(SelectedLogin(s).value, folders[j], 0))
      else r == s
    ensures AccountKept(s, r) && r.viewState.folders == s.viewState.folders
    ensures SameOutsideNavigation(s, r) && SentAtMostOne(s, r)
    ensures Inv(s) ==> Inv(r)
  {
    if !FolderReady(s) then s
    else
      var folders := s.viewState.folders.value;
      var j := PreviousIndex(s.foldersListSelected.value, |folders|);
      match Get(folders, j)
      case None => s
      case Some(folder) => SwitchFolder(s, SelectedLogin(s).value, folder, j)
  }

  predicate NextFolderDefined(s: AppState) {
    FolderReady(s) ==> |s.viewState.folders.value| > 0
  }

  /** `select_next_folder`: wraps within the folder list; nothing changes unless
      a folder exists at the new row. */
  function NextFolder(s: AppState): (r: AppState)
    requires NextFolderDefined(s)
    ensures !FolderReady(s) ==> r == s
    ensures FolderReady(s) ==>
      var folders, i := s.viewState.folders.value, s.foldersListSelected.value;
      var j := if i == |folders| - 1 then 0 else i + 1;
      if j < |folders| then
        r.foldersListSelected == Some(j) && r.foldersListState == Some(j) && MessagesCleared(r) && r.viewState.message.None? &&
        Emitted(s, r, ListEnvelopes(SelectedLogin(s).value, folders[j], 0))
      else r == s
    ensures AccountKept(s, r) && r.viewState.folders == s.viewState.folders
    ensures SameOutsideNavigation(s, r) && SentAtMostOne(s, r)
    ensures Inv(s) ==> Inv(r)
  {
    if !FolderReady(s) then s
    else
      var folders := s.viewState.folders.value;
      var j := NextIndex(s.foldersListSelected.value, |folders|);
      match Get(folders, j)
      case None => s
      case Some(folder) => SwitchFolder(s, SelectedLogin(s).value, folder, j)
  }

  // ---------------------------------------------------------------------------
  // Messages

  /** The id of the envelope at row `j`, with the account and folder it belongs
      to, when all three exist. */
  function MessageRequest(s: AppState, j: nat): Option<Action> {
    match (SelectedLogin(s), SelectedFolder(s))
    case (Some(login), Some(folder)) =>
      if s.viewState.messages.Some? && j < |s.viewState.messages.value| then
        Some(GetMessage(login, folder, s.viewState.messages.value[j].id))
      else None
    case _ => None
  }

  /** The common tail of the message handlers: select row `j`, clear the open
      message, and ask for the message at that row when it can be named. */
  function SwitchMessage(s: AppState, j: nat): (r: AppState)
    ensures r.messagesTableSelected == Some(j) && r.messagesTableState == Some(j)
    ensures r.viewState.message.None?
    ensures r.viewState.messages == s.viewState.messages && r.messagesTablePage == s.messagesTablePage
    ensures FolderKept(s, r)
    ensures SameOutsideNavigation(s, r)
    ensures MessageRequest(s, j).Some? ==> Emitted(s, r, MessageRequest(s, j).value)
    ensures MessageRequest(s, j).None? ==> Silent(s, r)
  {
    var t := ClearedMessage(s.(messagesTableSelected := Some(j), messagesTableState := Some(j)));
    match MessageRequest(t, j)
    case Some(a) => Emit(t, a)
    case None => t
  }

  /** `select_first_message_if_not_selected`. */
  function FirstMessageIfNotSelected(s: AppState): (r: AppState)
    ensures !(s.messagesTableSelected.None? && s.viewState.messages.Some?) ==> r == s
    ensures s.messagesTableSelected.None? && s.viewState.messages.Some? ==>
      r.messagesTableSelected == Some(0) && r.messagesTableState == Some(0) && r.viewState.message.None? &&
      (MessageRequest(s, 0).Some? ==> Emitted(s, r, MessageRequest(s, 0).value)) &&
      (MessageRequest(s, 0).None? ==> Silent(s, r))
    ensures FolderKept(s, r) && r.viewState.messages == s.viewState.messages && r.messagesTablePage == s.messagesTablePage
    ensures SameOutsideNavigation(s, r) && SentAtMostOne(s, r)
    ensures Inv(s) ==> Inv(r)
  {
    if !(s.messagesTableSelected.None? && s.viewState.messages.Some?) then s
    else SwitchMessage(s, 0)
  }

  /** The message handlers go past their early returns: a row is selected and
      a non-empty page of envelopes is shown. */
  predicate MessageReady(s: AppState) {
    s.messagesTableSelected.Some? && s.viewState.messages.Some? && |s.viewState.messages.value| > 0
  }

  /** `select_previous_message`: nothing happens without a non-empty page;
      otherwise the row wraps, the open message is cleared and the message at
      the new row is requested. */
  function PreviousMessage(s: AppState): (r: AppState)
    ensures !MessageReady(s) ==> r == s
    ensures MessageReady(s) ==>
      var n, i := |s.viewState.messages.value|, s.messagesTableSelected.value;
      var j := if i == 0 then n - 1 else i - 1;
      && r.messagesTableSelected == Some(j) && r.messagesTableState == Some(j) && r.viewState.message.None?
      && (i < n ==> j < n)
      && (SelectedLogin(s).Some? && SelectedFolder(s).Some? && 0 <= j < n ==>
            Emitted(s, r, GetMessage(SelectedLogin(s).value, SelectedFolder(s).value, s.viewState.messages.value[j].id)))
      && (!(SelectedLogin(s).Some? && SelectedFolder(s).Some? && 0 <= j < n) ==> Silent(s, r))
    ensures FolderKept(s, r) && r.viewState.messages == s.viewState.messages && r.messagesTablePage == s.messagesTablePage
    ensures SameOutsideNavigation(s, r) && SentAtMostOne(s, r)
    ensures Inv(s) ==> Inv(r)
  {
    if !MessageReady(s) then s
    else SwitchMessage(s, PreviousIndex(s.messagesTableSelected.value, |s.viewState.messages.value|))
  }

  /** `select_next_message`, the mirror image of `PreviousMessage`. */
  function NextMessage(s: AppState): (r: AppState)
    ensures !MessageReady(s) ==> r == s
    ensures MessageReady(s) ==>
      var n, i := |s.viewState.messages.value|, s.messagesTableSelected.value;
      var j := if i == n - 1 then 0 else i + 1;
      && r.messagesTableSelected == Some(j) && r.messagesTableState == Some(j) && r.viewState.message.None?
      && (i < n ==> j < n)
      && (SelectedLogin(s).Some? && SelectedFolder(s).Some? && j < n ==>
            Emitted(s, r, GetMessage(SelectedLogin(s).value, SelectedFolder(s).value, s.viewState.messages.value[j].id)))
      && (!(SelectedLogin(s).Some? && SelectedFolder(s).Some? && j < n) ==> Silent(s, r))
    ensures FolderKept(s, r) && r.viewState.messages == s.viewState.messages && r.messagesTablePage == s.messagesTablePage
    ensures SameOutsideNavigation(s, r) && SentAtMostOne(s, r)
    ensures Inv(s) ==> Inv(r)
  {
    if !MessageReady(s) then s
    else SwitchMessage(s, NextIndex(s.messagesTableSelected.value, |s.viewState.messages.value|))
  }

  /** Stepping down then up returns to the account, folder or message row
      that was selected. */
  lemma AccountRoundTrip(s: AppState)
    requires Inv(s) && s.accountsListSelected.Some?
    ensures PreviousAccountDefined(NextAccount(s))
    ensures PreviousAccount(NextAccount(s)).accountsListSelected == s.accountsListSelected
  {
  }

  lemma FolderRoundTrip(s: AppState)
    requires FolderReady(s) && s.foldersListSelected.value < |s.viewState.folders.value|
    ensures PreviousFolderDefined(NextFolder(s))
    ensures PreviousFolder(NextFolder(s)).foldersListSelected == s.foldersListSelected
  {
  }

  lemma MessageRoundTrip(s: AppState)
    requires MessageReady(s) && s.messagesTableSelected.value < |s.viewState.messages.value|
    ensures PreviousMessage(NextMessage(s)).messagesTableSelected == s.messagesTableSelected
  {
  }

  /** The invariant does not protect the folder pane: when an account's folder
      list is empty, row 0 is still selected, and then Up or Down reaches
      `len() - 1` on the empty list. */
  lemma EmptyFolderListUnderflows(s: AppState)
    requires Inv(s) && SelectedLogin(s).Some? && s.selectedWidget == Folders
    requires s.foldersListSelected.None? && s.viewState.folders == Some([])
    ensures Inv(FirstFolderIfNotSelected(s))
    ensures !KeyDefined(FirstFolderIfNotSelected(s), Up) && !KeyDefined(FirstFolderIfNotSelected(s), Down)
  {
  }

  // ---------------------------------------------------------------------------
  // Pages of envelopes

  /** Leave the page shown: no row, no envelopes, page number `page`, then ask
      for that page of the selected folder. */
  function SwitchPage(s: AppState, login: string, folder: string, page: nat): (r: AppState)
    ensures r.messagesTablePage == page
    ensures r.messagesTableSelected.None? && r.messagesTableState.None? && r.viewState.messages.None?
    ensures FolderKept(s, r) && r.viewState.message == s.viewState.message
    ensures Emitted(s, r, ListEnvelopes(login, folder, page))
    ensures SameOutsideNavigation(s, r)
  {
    Emit(s.(messagesTableState := None, messagesTableSelected := None, messagesTablePage := page,
            viewState := s.viewState.(messages := None)),
         ListEnvelopes(login, folder, page))
  }

  /** `select_previous_message_page`: a no-op on page 0 or without a selected folder. */
  function PreviousMessagePage(s: AppState): (r: AppState)
    ensures SelectedLogin(s).None? || SelectedFolder(s).None? || s.messagesTablePage == 0 ==> r == s
    ensures SelectedLogin(s).Some? && SelectedFolder(s).Some? && s.messagesTablePage > 0 ==>
      r.messagesTablePage == s.messagesTablePage - 1 &&
      r.messagesTableSelected.None? && r.viewState.messages.None? &&
      Emitted(s, r, ListEnvelopes(SelectedLogin(s).value, SelectedFolder(s).value, s.messagesTablePage - 1))
    ensures FolderKept(s, r) && r.viewState.message == s.viewState.message
    ensures SameOutsideNavigation(s, r) && SentAtMostOne(s, r)
    ensures Inv(s) ==> Inv(r)
  {
    match (SelectedLogin(s), SelectedFolder(s))
    case (Some(login), Some(folder)) =>
      if s.messagesTablePage == 0 then s
      else SwitchPage(s, login, folder, s.messagesTablePage - 1)
    case _ => s
  }

  /** The shown page is full: exactly a page size of envelopes, so there may be more. */
  predicate FullPage(s: AppState) {
    s.viewState.messages.Some? && |s.viewState.messages.value| == Email.PageSize
  }

  /** `select_next_message_page`: moves on only from a full page of a selected folder. */
  function NextMessagePage(s: AppState): (r: AppState)
    ensures SelectedLogin(s).None? || SelectedFolder(s).None? || !FullPage(s) ==> r == s
    ensures SelectedLogin(s).Some? && SelectedFolder(s).Some? && FullPage(s) ==>
      r.messagesTablePage == s.messagesTablePage + 1 &&
      r.messagesTableSelected.None? && r.viewState.messages.None? &&
      Emitted(s, r, ListEnvelopes(SelectedLogin(s).value, SelectedFolder(s).value, s.messagesTablePage + 1))
    ensures FolderKept(s, r) && r.viewState.message == s.viewState.message
    ensures SameOutsideNavigation(s, r) && SentAtMostOne(s, r)
    ensures Inv(s) ==> Inv(r)
  {
    match (SelectedLogin(s), SelectedFolder(s))
    case (Some(login), Some(folder)) =>
      if FullPage(s) then SwitchPage(s, login, folder, s.messagesTablePage + 1)
      else s
    case _ => s
  }

  /** Paging forward then back returns to the page number it left. */
  lemma PageRoundTrip(s: AppState)
    requires SelectedLogin(s).Some? && SelectedFolder(s).Some? && FullPage(s)
    ensures PreviousMessagePage(NextMessagePage(s)).messagesTablePage == s.messagesTablePage
  {
    var t := NextMessagePage(s);
    assert SelectedLogin(t) == SelectedLogin(s) && SelectedFolder(t) == SelectedFolder(s);
  }

  // ---------------------------------------------------------------------------
  // The send form

  function NextSendWidget(w: SelectedSendWidget): SelectedSendWidget {
    match w
    case To => Subject
    case Subject => Text
    case Text => To
  }

  function PreviousSendWidget(w: SelectedSendWidget): SelectedSendWidget {
    match w
    case To => Text
    case Subject => To
    case Text => Subject
  }

  /** Focus cycles To, Subject, Text: previous undoes next, next undoes previous,
      three steps return to the start and no two steps do. */
  lemma SendWidgetCycle(w: SelectedSendWidget)
    ensures PreviousSendWidget(NextSendWidget(w)) == w
    ensures NextSendWidget(PreviousSendWidget(w)) == w
    ensures NextSendWidget(NextSendWidget(NextSendWidget(w))) == w
    ensures NextSendWidget(w) != w && NextSendWidget(NextSendWidget(w)) != w
  {
  }

  /** The focused field of the send form. */
  function FocusedField(s: AppState): string {
    match s.selectedSendWidget
    case To => s.sendTo
    case Subject => s.sendSubject
    case Text => s.sendText
  }

  /** `s` with the focused field replaced by `v`. */
  function WithFocusedField(s: AppState, v: string): (r: AppState)
    ensures FocusedField(r) == v
  {
    match s.selectedSendWidget
    case To => s.(sendTo := v)
    case Subject => s.(sendSubject := v)
    case Text => s.(sendText := v)
  }

  /** Only the focused field differs between `s` and `r`. */
  predicate OnlyFocusedFieldChanged(s: AppState, r: AppState) {
    WithFocusedField(r, FocusedField(s)) == s
  }

  /** A typed character goes at the end of the focused field. */
  function Typed(s: AppState, c: char): (r: AppState)
    ensures FocusedField(r) == FocusedField(s) + [c]
    ensures OnlyFocusedFieldChanged(s, r)
  {
    WithFocusedField(s, FocusedField(s) + [c])
  }

  /** Backspace drops the focused field's last character when it has one. */
  function Erased(s: AppState): (r: AppState)
    ensures |FocusedField(s)| > 0 ==> FocusedField(r) == FocusedField(s)[..|FocusedField(s)| - 1]
    ensures |FocusedField(s)| == 0 ==> r == s
    ensures OnlyFocusedFieldChanged(s, r)
  {
    var f := FocusedField(s);
    if |f| > 0 then WithFocusedField(s, f[..|f| - 1]) else s
  }

  // ---------------------------------------------------------------------------
  // Key dispatch

  /** Focus another widget (`select_*_widget`). */
  function Focus(s: AppState, w: SelectedWidget): AppState {
    s.(selectedWidget := w)
  }

  /** `exit`. */
  function Exit(s: AppState): AppState {
    s.(exit := true)
  }

  predicate IsUp(key: KeyCode) { key == Up || key == Char('k') }
  predicate IsDown(key: KeyCode) { key == Down || key == Char('j') }
  predicate IsPageBack(key: KeyCode) { key == Left || key == Char('p') }
  predicate IsPageOn(key: KeyCode) { key == Right || key == Char('n') }

  /** Pressing `key` does not reach a `len() - 1` on an empty list. */
  predicate KeyDefined(s: AppState, key: KeyCode) {
    match s.selectedWidget
    case Accounts => (IsUp(key) ==> PreviousAccountDefined(s)) && (IsDown(key) ==> NextAccountDefined(s))
    case Folders => (IsUp(key) ==> PreviousFolderDefined(s)) && (IsDown(key) ==> NextFolderDefined(s))
    case _ => true
  }

  /** The keys every widget but the send form shares: quit, the web page, and focus changes. */
  function CommonKey(s: AppState, key: KeyCode): Option<AppState> {
    if key == Char('q') then Some(Exit(s))
    else if key == Char('x') then Some(s)
    else if key == Char('1') && s.selectedWidget != Accounts then Some(Focus(s, Accounts))
    else if key == Char('2') && s.selectedWidget != Folders then Some(Focus(s, Folders))
    else if key == Char('3') && s.selectedWidget != Messages then Some(Focus(s, Messages))
    else if key == Char('4') && s.selectedWidget != Message then Some(Focus(s, Message))
    else if key == Char('s') then Some(Focus(s, Send))
    else None
  }

  /** The send form's keys: Esc clears the form and returns to the accounts,
      Tab and BackTab move the focus, characters and Backspace edit the
      focused field. Nothing is sent and the application keeps running. */
  function SendKey(s: AppState, key: KeyCode): (r: AppState)
    requires s.selectedWidget == Send
    ensures key.Char? ==> FocusedField(r) == FocusedField(s) + [key.c] && OnlyFocusedFieldChanged(s, r)
    ensures key == Backspace ==>
      (|FocusedField(s)| > 0 ==> FocusedField(r) == FocusedField(s)[..|FocusedField(s)| - 1]) &&
      OnlyFocusedFieldChanged(s, r)
    ensures key == Backspace ==> r == Erased(s)
    ensures key == Esc ==> r == s.(sendTo := [], sendSubject := [], sendText := [], selectedWidget := Accounts)
    ensures key == Tab ==> r == s.(selectedSendWidget := NextSendWidget(s.selectedSendWidget))
    ensures key == BackTab ==> r == s.(selectedSendWidget := PreviousSendWidget(s.selectedSendWidget))
    ensures !(key.Char? || key in {Backspace, Esc, Tab, BackTab}) ==> r == s
    ensures r.outbox == s.outbox && r.exit == s.exit
    ensures Inv(s) ==> Inv(r)
  {
    if key == Esc then s.(sendTo := [], sendText := [], sendSubject := [], selectedWidget := Accounts)
    else if key == Tab then s.(selectedSendWidget := NextSendWidget(s.selectedSendWidget))
    else if key == BackTab then s.(selectedSendWidget := PreviousSendWidget(s.selectedSendWidget))
    else if key.Char? then Typed(s, key.c)
    else if key == Backspace then Erased(s)
    else s
  }

  /** The navigation keys a pane reacts to. */
  predicate IsNavigation(key: KeyCode) {
    IsUp(key) || IsDown(key) || IsPageBack(key) || IsPageOn(key)
  }

  /** Up and Down in the accounts pane. */
  function AccountsKey(s: AppState, key: KeyCode): (r: AppState)
    requires s.selectedWidget == Accounts && KeyDefined(s, key)
    ensures IsUp(key) ==> r == PreviousAccount(s)
    ensures IsDown(key) ==> r == NextAccount(s)
    ensures !(IsUp(key) || IsDown(key)) ==> r == s
    ensures SameOutsideNavigation(s, r) && SentAtMostOne(s, r)
    ensures Inv(s) ==> Inv(r)
  {
    if IsUp(key) then PreviousAccount(s)
    else if IsDown(key) then NextAccount(s)
    else s
  }

  /** Up and Down in the folders pane. */
  function FoldersKey(s: AppState, key: KeyCode): (r: AppState)
    requires s.selectedWidget == Folders && KeyDefined(s, key)
    ensures IsUp(key) ==> r == PreviousFolder(s)
    ensures IsDown(key) ==> r == NextFolder(s)
    ensures !(IsUp(key) || IsDown(key)) ==> r == s
    ensures SameOutsideNavigation(s, r) && SentAtMostOne(s, r)
    ensures Inv(s) ==> Inv(r)
  {
    if IsUp(key) then PreviousFolder(s)
    else if IsDown(key) then NextFolder(s)
    else s
  }

  /** Up, Down and the page keys in the messages pane. */
  function MessagesKey(s: AppState, key: KeyCode): (r: AppState)
    requires s.selectedWidget == Messages
    ensures IsUp(key) ==> r == PreviousMessage(s)
    ensures IsDown(key) ==> r == NextMessage(s)
    ensures IsPageBack(key) ==> r == PreviousMessagePage(s)
    ensures IsPageOn(key) ==> r == NextMessagePage(s)
    ensures !IsNavigation(key) ==> r == s
    ensures SameOutsideNavigation(s, r) && SentAtMostOne(s, r)
    ensures Inv(s) ==> Inv(r)
  {
    if IsUp(key) then PreviousMessage(s)
    else if IsDown(key) then NextMessage(s)
    else if IsPageBack(key) then PreviousMessagePage(s)
    else if IsPageOn(key) then NextMessagePage(s)
    else s
  }

  /** The keys of the four list and message widgets: the shared keys first, then
      the focused pane's own navigation. 'q' quits, 'x' changes nothing, the
      digit keys and 's' change only the focus, the message pane ignores every
      other key, the send form is left untouched and at most one action is sent. */
  function ListKey(s: AppState, key: KeyCode): (r: AppState)
    requires s.selectedWidget != Send && KeyDefined(s, key)
    ensures key == Char('q') ==> r == s.(exit := true)
    ensures key == Char('x') ==> r == s
    ensures key == Char('1') ==> r == s.(selectedWidget := Accounts)
    ensures key == Char('2') ==> r == s.(selectedWidget := Folders)
    ensures key == Char('3') ==> r == s.(selectedWidget := Messages)
    ensures key == Char('4') ==> r == s.(selectedWidget := Message)
    ensures key == Char('s') ==> r == s.(selectedWidget := Send)
    ensures s.selectedWidget == Accounts && CommonKey(s, key).None? ==> r == AccountsKey(s, key)
    ensures s.selectedWidget == Folders && CommonKey(s, key).None? ==> r == FoldersKey(s, key)
    ensures s.selectedWidget == Messages && CommonKey(s, key).None? ==> r == MessagesKey(s, key)
    ensures s.selectedWidget == Message && CommonKey(s, key).None? ==> r == s
    ensures IsNavigation(key) ==> CommonKey(s, key).None?
    ensures r.sendTo == s.sendTo && r.sendSubject == s.sendSubject && r.sendText == s.sendText
    ensures SentAtMostOne(s, r)
    ensures Inv(s) ==> Inv(r)
  {
    if CommonKey(s, key).Some? then CommonKey(s, key).value
    else
      match s.selectedWidget
      case Accounts => AccountsKey(s, key)
      case Folders => FoldersKey(s, key)
      case Messages => MessagesKey(s, key)
      case Message => s
  }

  /** In each pane the navigation keys run that pane's handler. */
  lemma ListKeyDispatch(s: AppState, key: KeyCode)
    requires s.selectedWidget != Send && KeyDefined(s, key) && IsNavigation(key)
    ensures s.selectedWidget == Accounts && IsUp(key) ==> ListKey(s, key) == PreviousAccount(s)
    ensures s.selectedWidget == Accounts && IsDown(key) ==> ListKey(s, key) == NextAccount(s)
    ensures s.selectedWidget == Folders && IsUp(key) ==> ListKey(s, key) == PreviousFolder(s)
    ensures s.selectedWidget == Folders && IsDown(key) ==> ListKey(s, key) == NextFolder(s)
    ensures s.selectedWidget == Messages && IsUp(key) ==> ListKey(s, key) == PreviousMessage(s)
    ensures s.selectedWidget == Messages && IsDown(key) ==> ListKey(s, key) == NextMessage(s)
    ensures s.selectedWidget == Messages && IsPageBack(key) ==> ListKey(s, key) == PreviousMessagePage(s)
    ensures s.selectedWidget == Messages && IsPageOn(key) ==> ListKey(s, key) == NextMessagePage(s)
    ensures (s.selectedWidget == Accounts || s.selectedWidget == Folders) && (IsPageBack(key) || IsPageOn(key)) ==>
      ListKey(s, key) == s
    ensures s.selectedWidget == Message ==> ListKey(s, key) == s
  {
  }

  /** `handle_key_event`: the outbox only grows, by at most one action, and the
      invariant is kept. */
  function KeyEvent(s: AppState, key: KeyCode): (r: AppState)
    requires KeyDefined(s, key)
    ensures SentAtMostOne(s, r)
    ensures Inv(s) ==> Inv(r)
  {
    if s.selectedWidget == Send then SendKey(s, key) else ListKey(s, key)
  }

  /** The state after a run of key presses, or None if one of them would reach
      a `len() - 1` on an empty list (a panic in the program). */
  function RunKeys(s: AppState, keys: seq<KeyCode>): Option<AppState>
    decreases keys
  {
    if keys == [] then Some(s)
    else if !KeyDefined(s, keys[0]) then None
    else RunKeys(KeyEvent(s, keys[0]), keys[1..])
  }

  /** Over any run of key presses the invariant holds, the outbox only grows, and
      it grows by at most one action per key. */
  lemma {:induction false} RunKeysKeepsInv(s: AppState, keys: seq<KeyCode>)
    requires Inv(s)
    decreases keys
    ensures RunKeys(s, keys).Some? ==>
      var r := RunKeys(s, keys).value;
      Inv(r) && |s.outbox| <= |r.outbox| <= |s.outbox| + |keys| && r.outbox[..|s.outbox|] == s.outbox
  {
    if keys != [] && KeyDefined(s, keys[0]) {
      var t := KeyEvent(s, keys[0]);
      RunKeysKeepsInv(t, keys[1..]);
      if RunKeys(s, keys).Some? {
        var r := RunKeys(s, keys).value;
        assert r == RunKeys(t, keys[1..]).value;
        assert r.outbox[..|t.outbox|] == t.outbox;
        assert t.outbox[..|s.outbox|] == s.outbox;
      }
    }
  }

  /** With the invariant, the account keys can never hit the empty-list case. */
  lemma AccountKeysDefined(s: AppState, key: KeyCode)
    requires Inv(s) && s.selectedWidget == Accounts
    ensures KeyDefined(s, key)
  {
  }

  // ---------------------------------------------------------------------------
  // The application object

  class App {
    var selectedWidget: SelectedWidget
    var selectedSendWidget: SelectedSendWidget
    var accountsListState: Option<nat>
    var accountsListSelected: Option<nat>
    var foldersListState: Option<nat>
    var foldersListSelected: Option<nat>
    var messagesTableState: Option<nat>
    var messagesTableSelected: Option<nat>
    var messagesTablePage: nat
    var viewState: ViewState
    var shouldMarkStateAsUpdating: bool
    var sendTo: string
    var sendSubject: string
    var sendText: string
    var exit: bool
    /** Everything sent on the actions channel, oldest first. */
    var outbox: seq<Action>

    /** The fields as one value. */
    function Snapshot(): AppState
      reads this
    {
      AppState(selectedWidget, selectedSendWidget, accountsListState, accountsListSelected,
               foldersListState, foldersListSelected, messagesTableState, messagesTableSelected,
               messagesTablePage, viewState, shouldMarkStateAsUpdating, sendTo, sendSubject, sendText,
               exit, outbox)
    }

    /** `App::default()`, then the view read from the shared state. */
    constructor (view: ViewState)
      ensures Snapshot() == Initial(view)
      ensures Inv(Snapshot())
    {
      selectedWidget, selectedSendWidget := Accounts, To;
      accountsListState, accountsListSelected := None, None;
      foldersListState, foldersListSelected := None, None;
      messagesTableState, messagesTableSelected := None, None;
      messagesTablePage := 0;
      viewState := view;
      shouldMarkStateAsUpdating := false;
      sendTo, sendSubject, sendText := [], [], [];
      exit := false;
      outbox := [];
    }

    /** `actions_tx.send(action)`, preceded by marking the state as updating. */
    method MarkAndSend(action: Action)
      modifies this
      ensures Snapshot() == Emit(old(Snapshot()), action)
    {
      shouldMarkStateAsUpdating := true;
      outbox := outbox + [action];
    }

    method ClearFolders()
      modifies this
      ensures Snapshot() == ClearedFolders(old(Snapshot()))
    {
      foldersListState := None;
      foldersListSelected := None;
      viewState := viewState.(folders := None);
    }

    method ClearMessages()
      modifies this
      ensures Snapshot() == ClearedMessages(old(Snapshot()))
    {
      messagesTableState := None;
      messagesTableSelected := None;
      messagesTablePage := 0;
      viewState := viewState.(messages := None);
    }

    method ClearMessage()
      modifies this
      ensures Snapshot() == ClearedMessage(old(Snapshot()))
    {
      viewState := viewState.(message := None);
    }

    method SelectWidget(w: SelectedWidget)
      modifies this
      ensures Snapshot() == Focus(old(Snapshot()), w)
    {
      selectedWidget := w;
    }

    method SelectPreviousSendWidget()
      modifies this
      ensures Snapshot() == old(Snapshot()).(selectedSendWidget := PreviousSendWidget(old(selectedSendWidget)))
    {
      match selectedSendWidget {
        case To => selectedSendWidget := Text;
        case Subject => selectedSendWidget := To;
        case Text => selectedSendWidget := Subject;
      }
    }

    method SelectNextSendWidget()
      modifies this
      ensures Snapshot() == old(Snapshot()).(selectedSendWidget := NextSendWidget(old(selectedSendWidget)))
    {
      match selectedSendWidget {
        case To => selectedSendWidget := Subject;
        case Subject => selectedSendWidget := Text;
        case Text => selectedSendWidget := To;
      }
    }

    method Exit()
      modifies this
      ensures Snapshot() == old(Snapshot()).(exit := true)
    {
      exit := true;
    }

    /** Shared tail of the account handlers (`SwitchAccount`). */
    method ChangeAccount(j: nat)
      modifies this
      ensures Snapshot() == SwitchAccount(old(Snapshot()), j)
    {
      accountsListSelected := Some(j);
      accountsListState := accountsListSelected;
      ClearFolders();
      ClearMessages();
      ClearMessage();
      if j < |viewState.accounts| {
        var login := viewState.accounts[j];
        MarkAndSend(ListFolders(login));
      }
    }

    method SelectFirstAccount()
      modifies this
      ensures Snapshot() == FirstAccount(old(Snapshot()))
    {
      ChangeAccount(0);
    }

    method SelectPreviousAccount()
      requires PreviousAccountDefined(Snapshot())
      modifies this
      ensures Snapshot() == PreviousAccount(old(Snapshot()))
    {
      if accountsListSelected.None? {
        return;
      }
      var i := accountsListSelected.value;
      var j := PreviousIndex(i, |viewState.accounts|);
      ChangeAccount(j);
    }

    method SelectNextAccount()
      requires NextAccountDefined(Snapshot())
      modifies this
      ensures Snapshot() == NextAccount(old(Snapshot()))
    {
      if accountsListSelected.None? {
        return;
      }
      var i := accountsListSelected.value;
      var j := NextIndex(i, |viewState.accounts|);
      ChangeAccount(j);
    }

    /** Shared tail of the folder handlers (`SwitchFolder`). */
    method ChangeFolder(login: string, folder: string, j: nat)
      modifies this
      ensures Snapshot() == SwitchFolder(old(Snapshot()), login, folder, j)
    {
      foldersListSelected := Some(j);
      foldersListState := foldersListSelected;
      ClearMessages();
      ClearMessage();
      MarkAndSend(ListEnvelopes(login, folder, 0));
    }

    method SelectFirstFolderIfNotSelected()
      modifies this
      ensures Snapshot() == FirstFolderIfNotSelected(old(Snapshot()))
    {
      if foldersListSelected.None? && viewState.folders.Some? {
        foldersListSelected := Some(0);
        foldersListState := foldersListSelected;
      } else {
        return;
      }
      var login := SelectedLogin(Snapshot());
      if login.None? {
        return;
      }
      var folders := viewState.folders.value;
      if |folders| == 0 {
        return;
      }
      ChangeFolder(login.value, folders[0], 0);
    }

    method SelectPreviousFolder()
      requires PreviousFolderDefined(Snapshot())
      modifies this
      ensures Snapshot() == PreviousFolder(old(Snapshot()))
    {
      var login := SelectedLogin(Snapshot());
      if login.None? || foldersListSelected.None? || viewState.folders.None? {
        return;
      }
      var folders := viewState.folders.value;
      var j := PreviousIndex(foldersListSelected.value, |folders|);
      if j >= |folders| {
        return;
      }
      ChangeFolder(login.value, folders[j], j);
    }

    method SelectNextFolder()
      requires NextFolderDefined(Snapshot())
      modifies this
      ensures Snapshot() == NextFolder(old(Snapshot()))
    {
      var login := SelectedLogin(Snapshot());
      if login.None? || foldersListSelected.None? || viewState.folders.None? {
        return;
      }
      var folders := viewState.folders.value;
      var j := NextIndex(foldersListSelected.value, |folders|);
      if j >= |folders| {
        return;
      }
      ChangeFolder(login.value, folders[j], j);
    }

    /** Shared tail of the message handlers (`SwitchMessage`). */
    method ChangeMessage(j: nat)
      modifies this
      ensures Snapshot() == SwitchMessage(old(Snapshot()), j)
    {
      messagesTableSelected := Some(j);
      messagesTableState := messagesTableSelected;
      ClearMessage();
      var request := MessageRequest(Snapshot(), j);
      if request.Some? {
        MarkAndSend(request.value);
      }
    }

    method SelectFirstMessageIfNotSelected()
      modifies this
      ensures Snapshot() == FirstMessageIfNotSelected(old(Snapshot()))
    {
      if messagesTableSelected.None? && viewState.messages.Some? {
        ChangeMessage(0);
      }
    }

    method SelectPreviousMessage()
      modifies this
      ensures Snapshot() == PreviousMessage(old(Snapshot()))
    {
      if messagesTableSelected.None? || viewState.messages.None? || |viewState.messages.value| == 0 {
        return;
      }
      ChangeMessage(PreviousIndex(messagesTableSelected.value, |viewState.messages.value|));
    }

    method SelectNextMessage()
      modifies this
      ensures Snapshot() == NextMessage(old(Snapshot()))
    {
      if messagesTableSelected.None? || viewState.messages.None? || |viewState.messages.value| == 0 {
        return;
      }
      ChangeMessage(NextIndex(messagesTableSelected.value, |viewState.messages.value|));
    }

    method SelectPreviousMessagePage()
      modifies this
      ensures Snapshot() == PreviousMessagePage(old(Snapshot()))
    {
      var login := SelectedLogin(Snapshot());
      var folder := SelectedFolder(Snapshot());
      if login.None? || folder.None? {
        return;
      }
      if messagesTablePage == 0 {
        return;
      } else {
        messagesTablePage := messagesTablePage - 1;
      }
      messagesTableState := None;
      messagesTableSelected := None;
      viewState := viewState.(messages := None);
      MarkAndSend(ListEnvelopes(login.value, folder.value, messagesTablePage));
    }

    method SelectNextMessagePage()
      modifies this
      ensures Snapshot() == NextMessagePage(old(Snapshot()))
    {
      var login := SelectedLogin(Snapshot());
      var folder := SelectedFolder(Snapshot());
      if login.None? || folder.None? || viewState.messages.None? {
        return;
      }
      if |viewState.messages.value| == Email.PageSize {
        messagesTableState := None;
        messagesTableSelected := None;
        viewState := viewState.(messages := None);
        messagesTablePage := messagesTablePage + 1;
      } else {
        return;
      }
      MarkAndSend(ListEnvelopes(login.value, folder.value, messagesTablePage));
    }

    /** The send form's keys. */
    method HandleSendKey(key: KeyCode)
      requires selectedWidget == Send
      modifies this
      ensures Snapshot() == SendKey(old(Snapshot()), key)
    {
      if key == Esc {
        sendTo := [];
        sendText := [];
        sendSubject := [];
        SelectWidget(Accounts);
      } else if key == Tab {
        SelectNextSendWidget();
      } else if key == BackTab {
        SelectPreviousSendWidget();
      } else if key.Char? {
        match selectedSendWidget {
          case To => sendTo := sendTo + [key.c];
          case Subject => sendSubject := sendSubject + [key.c];
          case Text => sendText := sendText + [key.c];
        }
      } else if key == Backspace {
        match selectedSendWidget {
          case To =>
            if |sendTo| > 0 { sendTo := sendTo[..|sendTo| - 1]; }
          case Subject =>
            if |sendSubject| > 0 { sendSubject := sendSubject[..|sendSubject| - 1]; }
          case Text =>
            if |sendText| > 0 { sendText := sendText[..|sendText| - 1]; }
        }
      }
    }

    /** The keys shared by the four list and message widgets; `handled` says
        whether `key` was one of them. */
    method HandleCommonKey(key: KeyCode) returns (handled: bool)
      requires selectedWidget != Send
      modifies this
      ensures handled == CommonKey(old(Snapshot()), key).Some?
      ensures handled ==> Snapshot() == CommonKey(old(Snapshot()), key).value
      ensures !handled ==> Snapshot() == old(Snapshot())
    {
      handled := true;
      if key == Char('q') {
        Exit();
      } else if key == Char('x') {
        // Opens a web page; the application state is untouched.
      } else if key == Char('1') && selectedWidget != Accounts {
        SelectWidget(Accounts);
      } else if key == Char('2') && selectedWidget != Folders {
        SelectWidget(Folders);
      } else if key == Char('3') && selectedWidget != Messages {
        SelectWidget(Messages);
      } else if key == Char('4') && selectedWidget != Message {
        SelectWidget(Message);
      } else if key == Char('s') {
        SelectWidget(Send);
      } else {
        handled := false;
      }
    }

    /** The list and message widgets' keys (`ListKey`). */
    method HandleListKey(key: KeyCode)
      requires selectedWidget != Send && KeyDefined(Snapshot(), key)
      modifies this
      ensures Snapshot() == ListKey(old(Snapshot()), key)
    {
      var widget := selectedWidget;
      var handled := HandleCommonKey(key);
      if handled {
        return;
      }
      match widget {
        case Accounts =>
          if IsUp(key) { SelectPreviousAccount(); }
          else if IsDown(key) { SelectNextAccount(); }
        case Folders =>
          if IsUp(key) { SelectPreviousFolder(); }
          else if IsDown(key) { SelectNextFolder(); }
        case Messages =>
          if IsUp(key) { SelectPreviousMessage(); }
          else if IsDown(key) { SelectNextMessage(); }
          else if IsPageBack(key) { SelectPreviousMessagePage(); }
          else if IsPageOn(key) { SelectNextMessagePage(); }
        case Message =>
      }
    }

    /** `handle_key_event`. */
    method HandleKeyEvent(key: KeyCode)
      requires KeyDefined(Snapshot(), key)
      modifies this
      ensures Snapshot() == KeyEvent(old(Snapshot()), key)
    {
      if selectedWidget == Send {
        HandleSendKey(key);
      } else {
        HandleListKey(key);
      }
    }
  }
}
