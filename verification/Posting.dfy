/** Posting rules: from a business event to ledger entries (src/ledgerflow/domain/posting.py). */
module Posting {
  import opened Wrappers
  import opened Seqs
  import opened Ledger

  /** One `role:minor` part of the split metadata; `minor` is None when it is not an integer. */
  datatype Part = Part(role: string, minor: Option<int>)

  datatype Request = Request(amount: Money, accounts: map<string, string>, split: seq<Part>)

  /** The two-legged rules: the role debited and the role credited. */
  function SimpleRoles(kind: string): Option<(string, string)>
  {
    match kind
    case "card_purchase" => Some(("expense", "funding"))
    case "deposit" => Some(("destination", "income"))
    case "opening_balance" => Some(("destination", "equity"))
    case "transfer" => Some(("destination", "source"))
    case "fee" => Some(("fee_expense", "funding"))
    case "refund" => Some(("funding", "expense"))
    case _ => None
  }

  predicate IsExpenseRole(role: string) { "expense_" <= role }

  /** When `_simple` and the rule around it raise nothing. */
  predicate SimpleLegal(kind: string, request: Request)
    requires SimpleRoles(kind).Some?
  {
    var (debit, credit) := SimpleRoles(kind).value;
    && debit in request.accounts && credit in request.accounts
    && request.amount.minor > 0
    && (kind == "transfer" ==> request.accounts[debit] != request.accounts[credit])
  }

  function SimpleEntries(debit: string, credit: string, request: Request): seq<Entry>
    requires debit in request.accounts && credit in request.accounts
  {
    [Entry(request.accounts[debit], Debit, request.amount),
     Entry(request.accounts[credit], Credit, request.amount)]
  }

  lemma SimpleBalances(debit: string, credit: string, request: Request)
    requires debit in request.accounts && credit in request.accounts
    requires request.amount.minor > 0 && request.amount.currency in CURRENCIES
    ensures IsJournal(SimpleEntries(debit, credit, request))
  {
    var es := SimpleEntries(debit, credit, request);
    forall currency ensures Drift(es, currency) == 0 {
      assert es == [] + [es[0]] + [es[1]];
      SumPush([es[0]], es[1], DriftOf(currency));
      SumPush([], es[0], DriftOf(currency));
    }
  }

  /** The posting changes the balance of a role's account, of this type, by so much. */
  predicate Changes(es: seq<Entry>, request: Request, role: string, accountType: AccountType, change: int)
  {
    role in request.accounts && Effect(es, accountType.NormalBalance(), request.accounts[role]) == change
  }

  /** What the kinds mean for the accounts they name: who gains and who pays. A purchase on credit adds
      to what is owed, a refund takes from it. */
  lemma KindsMove(kind: string, request: Request)
    requires SimpleRoles(kind).Some? && SimpleLegal(kind, request)
    requires var (debit, credit) := SimpleRoles(kind).value; request.accounts[debit] != request.accounts[credit]
    ensures var (debit, credit) := SimpleRoles(kind).value;
            var es, m := SimpleEntries(debit, credit, request), request.amount.minor;
            match kind
            case "card_purchase" =>
              && Changes(es, request, "expense", Expense, m) && Changes(es, request, "funding", Asset, -m)
              && Changes(es, request, "funding", Liability, m)
            case "refund" =>
              && Changes(es, request, "expense", Expense, -m) && Changes(es, request, "funding", Asset, m)
              && Changes(es, request, "funding", Liability, -m)
            case "deposit" =>
              Changes(es, request, "destination", Asset, m) && Changes(es, request, "income", Revenue, m)
            case "opening_balance" =>
              Changes(es, request, "destination", Asset, m) && Changes(es, request, "equity", Equity, m)
            case "transfer" =>
              Changes(es, request, "destination", Asset, m) && Changes(es, request, "source", Asset, -m)
            case "fee" =>
              Changes(es, request, "fee_expense", Expense, m) && Changes(es, request, "funding", Asset, -m)
            case _ => false
  {
    var (debit, credit) := SimpleRoles(kind).value;
    var es := SimpleEntries(debit, credit, request);
    forall normal, account
      ensures Effect(es, normal, account) == SignedAmount(normal, account, es[0]) + SignedAmount(normal, account, es[1])
    {
      TwoLegs(es[0], es[1], normal, account);
    }
  }

  /** The kinds with a two-legged rule. */
  lemma KindsAre(kind: string)
    ensures SimpleRoles(kind).Some? <==>
            kind in {"card_purchase", "deposit", "opening_balance", "transfer", "fee", "refund"}
  {
  }

  // ---- split purchases ----

  function PartMinor(): Part -> int
  {
    (p: Part) => if p.minor.Some? then p.minor.value else 0
  }

  predicate PartLegal(p: Part, request: Request)
  {
    p.minor.Some? && p.minor.value > 0 && p.role in request.accounts
  }

  /** An expense role is anything that starts with the prefix. */
  lemma ExpenseRoles(role: string)
    ensures IsExpenseRole(role) <==> exists rest :: role == "expense_" + rest
  {
    if IsExpenseRole(role) {
      assert role == "expense_" + role[8..];
    }
  }

  ghost predicate SplitLegal(request: Request)
  {
    && (exists role :: role in request.accounts && IsExpenseRole(role))
    && request.split != []
    && (forall p | p in request.split :: PartLegal(p, request))
    && Sum(request.split, PartMinor()) == request.amount.minor
    && "funding" in request.accounts
  }

  /** The first thing wrong with the parts, in the order they are read. */
  function PartsError(parts: seq<Part>, request: Request): Option<LedgerError>
  {
    if parts == [] then None
    else
      var earlier, p := PartsError(parts[..|parts| - 1], request), parts[|parts| - 1];
      if earlier.Some? then earlier
      else if p.minor.None? then Some(MalformedRequest)
      else if p.role !in request.accounts then Some(MissingRole(p.role))
      else if p.minor.value <= 0 then Some(InvalidEntry)
      else None
  }

  lemma {:induction false} PartsLegal(parts: seq<Part>, request: Request)
    ensures PartsError(parts, request).None? <==> forall p | p in parts :: PartLegal(p, request)
  {
    if parts != [] {
      var front, last := parts[..|parts| - 1], parts[|parts| - 1];
      PartsLegal(front, request);
      LastLegal(parts, request);
      hide PartsError, PartLegal;
      assert forall p :: p in parts <==> p in front || p == last by {
        assert parts == front + [last];
      }
    }
  }

  lemma LastLegal(parts: seq<Part>, request: Request)
    requires parts != []
    ensures PartsError(parts, request).None? <==>
            PartsError(parts[..|parts| - 1], request).None? && PartLegal(parts[|parts| - 1], request)
  {
  }

  /** What a refused split is refused for. */
  ghost function SplitError(request: Request): LedgerError
  {
    if (forall role | role in request.accounts :: !IsExpenseRole(role)) || request.split == [] then MalformedRequest
    else if PartsError(request.split, request).Some? then PartsError(request.split, request).value
    else if Sum(request.split, PartMinor()) != request.amount.minor then SplitMismatch
    else MissingRole("funding")
  }

  /** What a refused two-legged posting is refused for. */
  function SimpleError(kind: string, request: Request): LedgerError
    requires SimpleRoles(kind).Some?
  {
    var (debit, credit) := SimpleRoles(kind).value;
    if kind == "transfer" && credit !in request.accounts then MissingRole(credit)
    else if debit !in request.accounts then MissingRole(debit)
    else if kind == "transfer" && request.accounts[debit] == request.accounts[credit] then SameAccountTransfer
    else if request.amount.minor <= 0 then InvalidEntry
    else MissingRole(credit)
  }

  function DebitLeg(p: Part, request: Request): Entry
    requires PartLegal(p, request)
  {
    Entry(request.accounts[p.role], Debit, Money(p.minor.value, request.amount.currency))
  }

  function DebitLegs(parts: seq<Part>, request: Request): (r: seq<Entry>)
    requires forall p | p in parts :: PartLegal(p, request)
    ensures |r| == |parts|
  {
    seq(|parts|, i requires 0 <= i < |parts| => DebitLeg(parts[i], request))
  }

  ghost function SplitEntries(request: Request): seq<Entry>
    requires SplitLegal(request)
  {
    DebitLegs(request.split, request) + [Entry(request.accounts["funding"], Credit, request.amount)]
  }

  /** The allocation check in the split rule is exactly what makes the posting balance. */
  lemma SplitBalances(request: Request)
    requires SplitLegal(request) && request.amount.currency in CURRENCIES
    ensures IsJournal(SplitEntries(request))
  {
    var debits := DebitLegs(request.split, request);
    var credit := Entry(request.accounts["funding"], Credit, request.amount);
    assert forall i | 0 <= i < |debits| :: PartLegal(request.split[i], request) && ValidEntry(debits[i]);
    SumNonNegative(request.split, PartMinor());
    assert PartLegal(request.split[0], request) && PartMinor()(request.split[0]) > 0;
    assert request.amount.minor > 0;
    forall currency ensures Drift(SplitEntries(request), currency) == 0 {
      SumPush(debits, credit, DriftOf(currency));
      var factor := if currency == request.amount.currency then 1 else 0;
      SumMapped(request.split, debits, PartMinor(), DriftOf(currency), factor);
    }
  }

  lemma {:induction false} FirstError(parts: seq<Part>, n: nat, request: Request)
    requires n <= |parts|
    ensures PartsError(parts[..n], request).Some? ==> PartsError(parts, request) == PartsError(parts[..n], request)
  {
    if n < |parts| {
      FirstError(parts[..|parts| - 1], n, request);
      assert parts[..|parts| - 1][..n] == parts[..n];
    } else {
      assert parts[..n] == parts;
    }
  }

  /** `SplitPurchase.build`. */
  method BuildSplit(request: Request) returns (r: Result<seq<Entry>, LedgerError>)
    requires request.amount.currency in CURRENCIES
    ensures r.Success? <==> SplitLegal(request)
    ensures r.Success? ==> r.value == SplitEntries(request)
    ensures r.Failure? ==> r.error == SplitError(request)
  {
    if !exists role :: role in request.accounts && IsExpenseRole(role) {
      return Failure(MalformedRequest);
    }
    if request.split == [] {
      return Failure(MalformedRequest);
    }
    var entries, total := [], 0;
    PartsLegal(request.split, request);
    for i := 0 to |request.split|
      invariant PartsError(request.split[..i], request).None?
      invariant forall p | p in request.split[..i] :: PartLegal(p, request)
      invariant entries == DebitLegs(request.split[..i], request)
      invariant total == Sum(request.split[..i], PartMinor())
    {
      var part := request.split[i];
      assert part in request.split && request.split[..i + 1] == request.split[..i] + [part];
      assert request.split[..i + 1][..i] == request.split[..i];
      FirstError(request.split, i + 1, request);
      if part.minor.None? {
        return Failure(MalformedRequest);
      }
      if part.role !in request.accounts {
        return Failure(MissingRole(part.role));
      }
      var leg := NewEntry(request.accounts[part.role], Debit, Money(part.minor.value, request.amount.currency));
      if leg.Failure? {
        return Failure(leg.error);
      }
      SumPush(request.split[..i], part, PartMinor());
      entries := entries + [leg.value];
      total := total + part.minor.value;
    }
    assert request.split[..|request.split|] == request.split;
    if total != request.amount.minor {
      return Failure(SplitMismatch);
    }
    if "funding" !in request.accounts {
      return Failure(MissingRole("funding"));
    }
    entries := entries + [Entry(request.accounts["funding"], Credit, request.amount)];
    return Success(entries);
  }

  /** `build_transaction`. A rule that builds at all builds a journal: the constructor's own
      balance and count checks never fire. */
  method BuildTransaction(id: string, kind: string, request: Request) returns (r: Result<Journal, LedgerError>)
    requires request.amount.currency in CURRENCIES
    ensures r.Success? <==>
            if SimpleRoles(kind).Some? then SimpleLegal(kind, request)
            else kind == "split_purchase" && SplitLegal(request)
    ensures r.Success? ==>
              && r.value.id == id && r.value.kind == kind && r.value.reverses == None
              && IsJournal(r.value.entries)
              && r.value.entries ==
                 if SimpleRoles(kind).Some?
                 then SimpleEntries(SimpleRoles(kind).value.0, SimpleRoles(kind).value.1, request)
                 else SplitEntries(request)
    ensures r.Failure? ==>
              r.error == if SimpleRoles(kind).Some? then SimpleError(kind, request)
                         else if kind == "split_purchase" then SplitError(request) else UnknownKind
  {
    if SimpleRoles(kind).Some? {
      var (debit, credit) := SimpleRoles(kind).value;
      if kind == "transfer" && credit !in request.accounts {
        return Failure(MissingRole(credit));
      }
      if debit !in request.accounts {
        return Failure(MissingRole(debit));
      }
      if kind == "transfer" && request.accounts[debit] == request.accounts[credit] {
        return Failure(SameAccountTransfer);
      }
      if request.amount.minor <= 0 {
        return Failure(InvalidEntry);
      }
      if credit !in request.accounts {
        return Failure(MissingRole(credit));
      }
      SimpleBalances(debit, credit, request);
      r := NewJournal(id, kind, SimpleEntries(debit, credit, request), None);
    } else if kind == "split_purchase" {
      var built := BuildSplit(request);
      if built.Failure? {
        return Failure(built.error);
      }
      SplitBalances(request);
      r := NewJournal(id, kind, built.value, None);
    } else {
      return Failure(UnknownKind);
    }
  }
}
