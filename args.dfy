/**
  Building the initial state from the `--account login:password` arguments
  (src/args.rs). Command-line parsing itself is outside the model: the
  arguments arrive as a sequence of strings.
 */
module Args {
  import opened Wrappers
  import opened State

  /** The two ways start-up can fail. */
  datatype ArgsError =
    | NoAccounts             // "provide at least one --account login:password"
    | InvalidAccountFormat   // "invalid account format. Expected 'login:password'"

  const Separator: char := ':'

  /** Number of occurrences of `c` in `s`. */
  function Count(s: string, c: char): nat {
    if s == [] then 0 else (if s[0] == c then 1 else 0) + Count(s[1..], c)
  }

  /** The parts joined back together with `sep` between them. */
  function Join(parts: seq<string>, sep: char): string
    requires |parts| > 0
  {
    if |parts| == 1 then parts[0] else parts[0] + [sep] + Join(parts[1..], sep)
  }

  /** `s.split(sep)`: the maximal pieces between separators, empty ones included;
      an empty string gives one empty piece. */
  function Split(s: string, sep: char): (parts: seq<string>)
    ensures |parts| == Count(s, sep) + 1
    ensures forall i :: 0 <= i < |parts| ==> sep !in parts[i]
  {
    if s == [] then [[]]
    else
      var rest := Split(s[1..], sep);
      if s[0] == sep then [[]] + rest
      else [[s[0]] + rest[0]] + rest[1..]
  }

  /** Splitting loses nothing: the pieces joined with the separator give the input back. */
  lemma {:induction false} JoinSplit(s: string, sep: char)
    ensures Join(Split(s, sep), sep) == s
  {
    if s != [] {
      JoinSplit(s[1..], sep);
      var rest := Split(s[1..], sep);
      if s[0] != sep {
        if |rest| > 1 {
          assert Join(rest, sep) == rest[0] + [sep] + Join(rest[1..], sep);
          assert Split(s, sep)[1..] == rest[1..];
        }
      }
    }
  }

  /** Splitting a string made of separator-free pieces gives those pieces back. */
  lemma {:induction false} SplitJoin(parts: seq<string>, sep: char)
    requires |parts| > 0
    requires forall i :: 0 <= i < |parts| ==> sep !in parts[i]
    ensures Split(Join(parts, sep), sep) == parts
  {
    if |parts| == 1 {
      SplitWhole(parts[0], sep);
    } else {
      SplitJoin(parts[1..], sep);
      SplitPiece(parts[0], Join(parts[1..], sep), sep);
    }
  }

  /** A separator-free string is a single piece. */
  lemma {:induction false} SplitWhole(piece: string, sep: char)
    requires sep !in piece
    ensures Split(piece, sep) == [piece]
  {
    if piece != [] {
      SplitWhole(piece[1..], sep);
      assert [piece[0]] + piece[1..] == piece;
    }
  }

  /** A separator-free prefix followed by a separator splits off as one piece. */
  lemma {:induction false} SplitPiece(piece: string, tail: string, sep: char)
    requires sep !in piece
    ensures Split(piece + [sep] + tail, sep) == [piece] + Split(tail, sep)
  {
    var s := piece + [sep] + tail;
    if piece != [] {
      SplitPiece(piece[1..], tail, sep);
      assert s[1..] == piece[1..] + [sep] + tail;
      var rest := Split(s[1..], sep);
      assert rest[0] == piece[1..] && rest[1..] == Split(tail, sep);
      assert [s[0]] + rest[0] == piece;
    } else {
      assert s == [sep] + tail;
      assert s[1..] == tail;
    }
  }

  /** One `login:password` argument: accepted only when it splits into exactly two parts. */
  function ParseAccount(s: string): (r: Result<Account, ArgsError>)
    ensures r.Ok? <==> Count(s, Separator) == 1
    ensures r.Err? ==> r.error == InvalidAccountFormat
  {
    var parts := Split(s, Separator);
    if |parts| != 2 then Err(InvalidAccountFormat)
    else Ok(Account(parts[0], parts[1]))
  }

  /** An accepted argument is the login, one colon, then the password, and
      neither half contains a colon. */
  lemma ParsedAccountRebuilds(s: string)
    requires ParseAccount(s).Ok?
    ensures var a := ParseAccount(s).value;
      s == a.login + [Separator] + a.password && Separator !in a.login && Separator !in a.password
  {
    JoinSplit(s, Separator);
    var parts := Split(s, Separator);
    assert Join(parts[1..], Separator) == parts[1];
  }

  /** Round trip: any colon-free login and password, either possibly empty, are
      recovered from `login:password`. */
  lemma ParseAccountRoundTrip(login: string, password: string)
    requires Separator !in login && Separator !in password
    ensures ParseAccount(login + [Separator] + password) == Ok(Account(login, password))
  {
    SplitJoin([login, password], Separator);
    assert Join([login, password], Separator) == login + [Separator] + password;
  }

  /** The accounts of all arguments in order; the first malformed one aborts. */
  function ParseAll(args: seq<string>): (r: Result<seq<Account>, ArgsError>)
  {
    if args == [] then Ok([])
    else
      match ParseAccount(args[0])
      case Err(e) => Err(e)
      case Ok(a) =>
        match ParseAll(args[1..])
        case Err(e) => Err(e)
        case Ok(rest) => Ok([a] + rest)
  }

  /** What `get_initial_state_from_args` accepts: a non-empty list of well-formed arguments. */
  function ParseAccounts(args: seq<string>): (r: Result<seq<Account>, ArgsError>)
    ensures args == [] ==> r == Err(NoAccounts)
  {
    if args == [] then Err(NoAccounts) else ParseAll(args)
  }

  /** `ParseAll` succeeds exactly when every argument is well formed, and then the
      accounts are those of the arguments, one each, in argument order. */
  lemma {:induction false} ParseAllSpec(args: seq<string>)
    ensures ParseAll(args).Ok? <==> forall i :: 0 <= i < |args| ==> ParseAccount(args[i]).Ok?
    ensures ParseAll(args).Ok? ==>
      |ParseAll(args).value| == |args| &&
      forall i :: 0 <= i < |args| ==> ParseAll(args).value[i] == ParseAccount(args[i]).value
    ensures ParseAll(args).Err? ==> ParseAll(args).error == InvalidAccountFormat
  {
    if args != [] {
      ParseAllSpec(args[1..]);
      if ParseAccount(args[0]).Ok? && ParseAll(args[1..]).Ok? {
        var rest := ParseAll(args[1..]).value;
        forall i | 0 <= i < |args|
          ensures ParseAll(args).value[i] == ParseAccount(args[i]).value
        {
          if i > 0 { assert args[i] == args[1..][i - 1]; }
        }
      } else if ParseAccount(args[0]).Ok? {
        var i :| 0 <= i < |args[1..]| && ParseAccount(args[1..][i]).Err?;
        assert args[i + 1] == args[1..][i];
      } else {
        assert ParseAccount(args[0]).Err?;
      }
    }
  }

  /** The first malformed argument decides the outcome, whatever follows it. */
  lemma {:induction false} FirstMalformedAborts(args: seq<string>, k: nat)
    requires k < |args| && ParseAccount(args[k]).Err?
    requires forall i :: 0 <= i < k ==> ParseAccount(args[i]).Ok?
    ensures ParseAccounts(args) == Err(InvalidAccountFormat)
  {
    ParseAllSpec(args);
  }

  /**
    `get_initial_state_from_args`: a fresh state, rejected when no account is
    given, then each argument split on ':' and added in order, the first
    malformed one aborting with an error.
   */
  method GetInitialStateFromArgs(args: seq<string>) returns (r: Result<State, ArgsError>)
    ensures r.Err? <==> ParseAccounts(args).Err?
    ensures r.Err? ==> r.error == ParseAccounts(args).error
    ensures r.Ok? ==> fresh(r.value) && r.value.accounts == ParseAccounts(args).value
    ensures r.Ok? ==> r.value.accountFolders == map[] && r.value.accountEnvelopes == map[] && !r.value.isUpdating
  {
    var state := new State();
    if |args| == 0 {
      return Err(NoAccounts);
    }
    ParseAllSpec(args);
    for i := 0 to |args|
      invariant fresh(state)
      invariant state.accountFolders == map[] && state.accountEnvelopes == map[] && !state.isUpdating
      invariant forall j :: 0 <= j < i ==> ParseAccount(args[j]).Ok?
      invariant |state.accounts| == i
      invariant forall j :: 0 <= j < i ==> state.accounts[j] == ParseAccount(args[j]).value
    {
      var parts := Split(args[i], Separator);
      if |parts| != 2 {
        FirstMalformedAborts(args, i);
        return Err(InvalidAccountFormat);
      }
      state.AddAccount(parts[0], parts[1]);
    }
    return Ok(state);
  }
}
