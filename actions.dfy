/**
  The intents the user interface sends to the mail executor (src/actions.rs).

  Equality and hashing look only at the variant, never at the payload, so
  two requests of the same kind are interchangeable for the coalescing set.
 */
module Actions {

  datatype Action =
    | ListFolders(login: string)
    | ListEnvelopes(login: string, folder: string, page: nat)
    | GetMessage(login: string, folder: string, id: string)
    | SendMessage(login: string, to: string, subject: string, text: string)

  /** The enum discriminant: which variant an action is, without its payload. */
  datatype Kind = ListFoldersKind | ListEnvelopesKind | GetMessageKind | SendMessageKind

  /** Every discriminant there is. */
  const AllKinds: set<Kind> := {ListFoldersKind, ListEnvelopesKind, GetMessageKind, SendMessageKind}

  function Discriminant(a: Action): (k: Kind)
    ensures k == ListFoldersKind <==> a.ListFolders?
    ensures k == ListEnvelopesKind <==> a.ListEnvelopes?
    ensures k == GetMessageKind <==> a.GetMessage?
    ensures k == SendMessageKind <==> a.SendMessage?
  {
    match a
    case ListFolders(_) => ListFoldersKind
    case ListEnvelopes(_, _, _) => ListEnvelopesKind
    case GetMessage(_, _, _) => GetMessageKind
    case SendMessage(_, _, _, _) => SendMessageKind
  }

  /** `PartialEq::eq`: the discriminants are compared, the payloads ignored. */
  predicate Eq(a: Action, b: Action) {
    Discriminant(a) == Discriminant(b)
  }

  /** The value fed to the hasher: the discriminant's position in the enum. */
  function HashCode(a: Action): (h: nat)
    ensures h < |AllKinds|
  {
    KindIndex(Discriminant(a))
  }

  function KindIndex(k: Kind): nat {
    match k
    case ListFoldersKind => 0
    case ListEnvelopesKind => 1
    case GetMessageKind => 2
    case SendMessageKind => 3
  }

  /** A canonical member of each equivalence class. */
  function Representative(k: Kind): (a: Action)
    ensures Discriminant(a) == k
  {
    match k
    case ListFoldersKind => ListFolders("")
    case ListEnvelopesKind => ListEnvelopes("", "", 0)
    case GetMessageKind => GetMessage("", "", "")
    case SendMessageKind => SendMessage("", "", "", "")
  }

  /** Two actions are equal exactly when both are the same variant. */
  lemma EqIffSameVariant(a: Action, b: Action)
    ensures Eq(a, b) <==>
      (a.ListFolders? && b.ListFolders?) || (a.ListEnvelopes? && b.ListEnvelopes?) ||
      (a.GetMessage? && b.GetMessage?) || (a.SendMessage? && b.SendMessage?)
  {
  }

  /** Requests for different folders, pages or messages still compare equal. */
  lemma PayloadIgnored(l1: string, f1: string, p1: nat, i1: string, l2: string, f2: string, p2: nat, i2: string)
    ensures Eq(ListEnvelopes(l1, f1, p1), ListEnvelopes(l2, f2, p2))
    ensures Eq(GetMessage(l1, f1, i1), GetMessage(l2, f2, i2))
    ensures Eq(ListFolders(l1), ListFolders(l2))
  {
  }

  /** `Eq` is the equivalence relation that `impl Eq` promises. */
  lemma EqIsEquivalence(a: Action, b: Action, c: Action)
    ensures Eq(a, a)
    ensures Eq(a, b) <==> Eq(b, a)
    ensures Eq(a, b) && Eq(b, c) ==> Eq(a, c)
  {
  }

  /** Hashing agrees with equality in both directions: equal actions hash equally,
      and actions of different variants never collide. */
  lemma HashAgreesWithEq(a: Action, b: Action)
    ensures Eq(a, b) <==> HashCode(a) == HashCode(b)
  {
  }

  /** There are exactly four equivalence classes: every action is equal to one of
      the four representatives, and no two representatives are equal. */
  lemma FourClasses(a: Action)
    ensures |AllKinds| == 4
    ensures Discriminant(a) in AllKinds && Eq(a, Representative(Discriminant(a)))
    ensures forall k, k' :: k in AllKinds && k' in AllKinds && k != k' ==>
      !Eq(Representative(k), Representative(k'))
  {
  }
}
