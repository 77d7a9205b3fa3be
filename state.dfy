/**
  The process-wide state (src/state.rs): the account list set at start-up,
  and the per-login cache slots and busy flag that the executor writes and
  the user interface reads.
 */
module State {
  import opened Wrappers
  import opened MailBackend

  /** A configured account; the password's secret wrapper is a plain string here. */
  datatype Account = Account(login: string, password: string)

  /** The copy of the accounts handed to the terminal side. */
  datatype TerminalState = TerminalState(accounts: seq<Account>)

  /** The snapshot the user interface renders: account logins, and the folders,
      envelope page and open message of the selected account (None = loading). */
  datatype ViewState = ViewState(
    accounts: seq<string>,
    folders: Option<seq<string>>,
    messages: Option<seq<Envelope>>,
    message: Option<string>)

  /** One write into a cache slot, in the order the executor performs them. */
  datatype SlotWrite =
    | FoldersWrite(login: string, folders: Option<seq<string>>)
    | EnvelopesWrite(login: string, envelopes: Option<seq<Envelope>>)

  class State {
    var accounts: seq<Account>
    /** Folder names per login: absent, None while loading, or Some(names). */
    var accountFolders: map<string, Option<seq<string>>>
    /** The current envelope page per login, with the same three states. */
    var accountEnvelopes: map<string, Option<seq<Envelope>>>
    /** True while the interface must not replace its view with the cache. */
    var isUpdating: bool
    /** Every slot write so far; lets contracts say that "loading" came first. */
    ghost var writes: seq<SlotWrite>

    constructor ()
      ensures accounts == [] && accountFolders == map[] && accountEnvelopes == map[]
      ensures !isUpdating && writes == []
    {
      accounts := [];
      accountFolders := map[];
      accountEnvelopes := map[];
      isUpdating := false;
      writes := [];
    }

    /** `add_account`: pushes the account at the end; nothing else changes. */
    method AddAccount(login: string, password: string)
      modifies this`accounts
      ensures accounts == old(accounts) + [Account(login, password)]
      ensures |accounts| == |old(accounts)| + 1
      ensures accounts[..|old(accounts)|] == old(accounts)
    {
      accounts := accounts + [Account(login, password)];
    }

    /** `as_terminal_state`: an independent copy of the stored accounts. */
    method AsTerminalState() returns (t: TerminalState)
      ensures t.accounts == accounts
    {
      t := TerminalState(accounts);
    }

    /** `account_folders.insert(login, slot)`. */
    method SetFolders(login: string, slot: Option<seq<string>>)
      modifies this`accountFolders, this`writes
      ensures accountFolders == old(accountFolders)[login := slot]
      ensures writes == old(writes) + [FoldersWrite(login, slot)]
    {
      accountFolders := accountFolders[login := slot];
      writes := writes + [FoldersWrite(login, slot)];
    }

    /** `account_envelopes.insert(login, slot)`. */
    method SetEnvelopes(login: string, slot: Option<seq<Envelope>>)
      modifies this`accountEnvelopes, this`writes
      ensures accountEnvelopes == old(accountEnvelopes)[login := slot]
      ensures writes == old(writes) + [EnvelopesWrite(login, slot)]
    {
      accountEnvelopes := accountEnvelopes[login := slot];
      writes := writes + [EnvelopesWrite(login, slot)];
    }

    /** `*is_updating.write() = value`. */
    method SetUpdating(value: bool)
      modifies this`isUpdating
      ensures isUpdating == value
    {
      isUpdating := value;
    }
  }
}
