/** The ledger algebra: money, entries, balanced transactions, reversal and the balance fold
    (src/ledgerflow/domain/ledger.py). Loops of the source are loops here, proved against sums. */
module Ledger {
  import opened Wrappers
  import opened Seqs

  datatype Direction = Debit | Credit {
    function Opposite(): Direction { if Debit? then Credit else Debit }
  }

  datatype AccountType = Asset | Liability | Equity | Revenue | Expense {
    function NormalBalance(): Direction { if Asset? || Expense? then Debit else Credit }
  }

  datatype Money = Money(minor: int, currency: string)

  const CURRENCIES := {"usd", "eur", "gbp", "jpy"}

  datatype Entry = Entry(account: string, direction: Direction, amount: Money) {
    function Reversed(): Entry { this.(direction := direction.Opposite()) }
  }

  datatype Account = Account(id: string, accountType: AccountType, currency: string, floor: Option<int>) {
    function NormalBalance(): Direction { accountType.NormalBalance() }
  }

  datatype Journal = Journal(id: string, kind: string, entries: seq<Entry>, reverses: Option<string>)

  datatype LedgerError =
    | UnsupportedCurrency
    | InvalidEntry
    | TooFewEntries
    | Unbalanced
    | CurrencyMismatch
    | ReversalOfReversal
    | MissingRole(role: string)
    | MalformedRequest
    | SameAccountTransfer
    | SplitMismatch
    | UnknownKind

  /** What `Entry` and `Money` enforce when an entry is constructed. */
  predicate ValidEntry(e: Entry)
  {
    e.amount.minor > 0 && e.amount.currency in CURRENCIES
  }

  function NewEntry(account: string, direction: Direction, amount: Money): (r: Result<Entry, LedgerError>)
    ensures r.Success? <==> amount.minor > 0 && amount.currency in {"usd", "eur", "gbp", "jpy"}
    ensures r.Success? <==> ValidEntry(Entry(account, direction, amount))
    ensures r.Success? ==> r.value == Entry(account, direction, amount)
    ensures r.Failure? ==> r.error == (if amount.currency in CURRENCIES then InvalidEntry else UnsupportedCurrency)
  {
    if amount.currency !in CURRENCIES then Failure(UnsupportedCurrency)
    else if amount.minor <= 0 then Failure(InvalidEntry)
    else Success(Entry(account, direction, amount))
  }

  // ---- weights: how one entry counts in each sum ----

  function DriftAmount(currency: string, e: Entry): int
  {
    if e.amount.currency != currency then 0
    else if e.direction == Debit then e.amount.minor else -e.amount.minor
  }

  function DriftOf(currency: string): Entry -> int
  {
    (e: Entry) => DriftAmount(currency, e)
  }

  function SideOf(direction: Direction, currency: string): Entry -> int
  {
    (e: Entry) => if e.amount.currency == currency && e.direction == direction then e.amount.minor else 0
  }

  /** Positive when the entry moves the account in its natural direction. */
  function SignedAmount(normal: Direction, account: string, e: Entry): int
  {
    if e.account != account then 0
    else if e.direction == normal then e.amount.minor else -e.amount.minor
  }

  function SignedOf(normal: Direction, account: string): Entry -> int
  {
    (e: Entry) => SignedAmount(normal, account, e)
  }

  /** Debits minus credits in one currency. */
  function Drift(es: seq<Entry>, currency: string): int { Sum(es, DriftOf(currency)) }

  /** The fold every balance must agree with: signed effect of the entries on one account. */
  function Effect(es: seq<Entry>, normal: Direction, account: string): int { Sum(es, SignedOf(normal, account)) }

  lemma TwoLegs(x: Entry, y: Entry, normal: Direction, account: string)
    ensures Effect([x, y], normal, account) == SignedAmount(normal, account, x) + SignedAmount(normal, account, y)
  {
    assert [x, y] == [] + [x] + [y];
    SumPush([x], y, SignedOf(normal, account));
    SumPush([], x, SignedOf(normal, account));
  }

  /** The class invariant of `JournalTransaction`. */
  predicate IsJournal(es: seq<Entry>)
  {
    && |es| >= 2
    && (forall e | e in es :: ValidEntry(e))
    && Balanced(es)
  }

  /** Debits equal credits in every currency that occurs. */
  predicate Balanced(es: seq<Entry>)
  {
    forall e | e in es :: Drift(es, e.amount.currency) == 0
  }

  /** ... and therefore in every currency. */
  lemma BalancedIn(es: seq<Entry>, currency: string)
    requires Balanced(es)
    ensures Drift(es, currency) == 0
  {
    if e :| e in es && e.amount.currency == currency {
    } else {
      SumZero(es, DriftOf(currency));
    }
  }

  /** `JournalTransaction.__post_init__`: the per-currency drift table and the checks on it. */
  method NewJournal(id: string, kind: string, entries: seq<Entry>, reverses: Option<string>)
    returns (r: Result<Journal, LedgerError>)
    requires forall e | e in entries :: ValidEntry(e)
    ensures r.Success? <==> IsJournal(entries)
    ensures r.Success? ==> r.value == Journal(id, kind, entries, reverses)
    ensures r.Failure? ==> r.error == if |entries| < 2 then TooFewEntries else Unbalanced
  {
    if |entries| < 2 {
      return Failure(TooFewEntries);
    }
    var drift: map<string, int> := map[];
    for i := 0 to |entries|
      invariant forall c :: c in drift ==> drift[c] == Drift(entries[..i], c)
      invariant forall c :: c !in drift ==> Drift(entries[..i], c) == 0
    {
      var e := entries[i];
      assert entries[..i + 1][..i] == entries[..i];
      var sign := if e.direction == Debit then 1 else -1;
      var before := if e.amount.currency in drift then drift[e.amount.currency] else 0;
      drift := drift[e.amount.currency := before + sign * e.amount.minor];
    }
    assert entries[..|entries|] == entries;
    if currency :| currency in drift && drift[currency] != 0 {
      if Balanced(entries) {
        BalancedIn(entries, currency);
      }
      return Failure(Unbalanced);
    }
    return Success(Journal(id, kind, entries, reverses));
  }

  /** `JournalTransaction.total`: amount moved on one side, by currency. */
  method Total(t: Journal, direction: Direction) returns (totals: map<string, int>)
    ensures totals == Totals(t.entries, direction)
  {
    totals := map[];
    for i := 0 to |t.entries|
      invariant totals == Totals(t.entries[..i], direction)
    {
      var e := t.entries[i];
      assert t.entries[..i + 1][..i] == t.entries[..i];
      if e.direction == direction {
        var before := if e.amount.currency in totals then totals[e.amount.currency] else 0;
        totals := totals[e.amount.currency := before + e.amount.minor];
      }
    }
    assert t.entries[..|t.entries|] == t.entries;
  }

  function Totals(es: seq<Entry>, direction: Direction): map<string, int>
  {
    if es == [] then map[]
    else
      var m, e := Totals(es[..|es| - 1], direction), es[|es| - 1];
      if e.direction != direction then m
      else m[e.amount.currency := (if e.amount.currency in m then m[e.amount.currency] else 0) + e.amount.minor]
  }

  /** The table lists exactly the currencies moved on that side, each with the sum of its entries. */
  lemma {:induction false} TotalsMeaning(es: seq<Entry>, direction: Direction)
    ensures forall c :: c in Totals(es, direction) <==>
                        exists i :: 0 <= i < |es| && es[i].direction == direction && es[i].amount.currency == c
    ensures forall c :: c in Totals(es, direction) ==> Totals(es, direction)[c] == Sum(es, SideOf(direction, c))
    ensures forall c :: c !in Totals(es, direction) ==> Sum(es, SideOf(direction, c)) == 0
  {
    if es != [] {
      TotalsMeaning(es[..|es| - 1], direction);
      assert es == es[..|es| - 1] + [es[|es| - 1]];
    }
  }

  /** Debit and credit totals of a journal are the same table: same currencies, same amounts. */
  lemma TotalsAgree(es: seq<Entry>)
    requires IsJournal(es)
    ensures Totals(es, Debit) == Totals(es, Credit)
  {
    var debits, credits := Totals(es, Debit), Totals(es, Credit);
    forall c
      ensures (c in debits <==> c in credits) && (c in debits ==> debits[c] == credits[c])
    {
      SumMapped(es, es, SideOf(Credit, c), NegatedSideOf(c), -1);
      SumSplit(es, DriftOf(c), SideOf(Debit, c), NegatedSideOf(c));
      BalancedIn(es, c);
      TotalPositive(es, Debit, c);
      TotalPositive(es, Credit, c);
    }
  }

  lemma TotalPositive(es: seq<Entry>, direction: Direction, c: string)
    requires forall e | e in es :: ValidEntry(e)
    ensures c in Totals(es, direction) <==> Sum(es, SideOf(direction, c)) > 0
    ensures c in Totals(es, direction) ==> Totals(es, direction)[c] == Sum(es, SideOf(direction, c))
  {
    TotalsMeaning(es, direction);
    SumNonNegative(es, SideOf(direction, c));
    if c in Totals(es, direction) {
      var i :| 0 <= i < |es| && es[i].direction == direction && es[i].amount.currency == c;
      assert es[i] in es && SideOf(direction, c)(es[i]) > 0;
    }
  }

  function NegatedSideOf(currency: string): Entry -> int
  {
    (e: Entry) => -SideOf(Credit, currency)(e)
  }

  // ---- reversal ----

  function ReversedAll(es: seq<Entry>): (r: seq<Entry>)
    ensures |r| == |es|
  {
    seq(|es|, i requires 0 <= i < |es| => es[i].Reversed())
  }

  lemma ReversalNegates(es: seq<Entry>, normal: Direction, account: string, currency: string)
    ensures Effect(ReversedAll(es), normal, account) == -Effect(es, normal, account)
    ensures Drift(ReversedAll(es), currency) == -Drift(es, currency)
  {
    SumMapped(es, ReversedAll(es), SignedOf(normal, account), SignedOf(normal, account), -1);
    SumMapped(es, ReversedAll(es), DriftOf(currency), DriftOf(currency), -1);
  }

  lemma ReversalKeepsJournal(es: seq<Entry>)
    requires IsJournal(es)
    ensures IsJournal(ReversedAll(es))
    ensures ReversedAll(ReversedAll(es)) == es
  {
    forall e | e in ReversedAll(es) ensures ValidEntry(e) {
      var i :| 0 <= i < |es| && e == es[i].Reversed();
      assert ValidEntry(es[i]);
    }
    forall currency ensures Drift(ReversedAll(es), currency) == 0 {
      ReversalNegates(es, Debit, "", currency);
      BalancedIn(es, currency);
    }
  }

  /** `JournalTransaction.reverse`: the mirrored posting, refused for a reversal. */
  method Reverse(t: Journal, newId: string) returns (r: Result<Journal, LedgerError>)
    requires IsJournal(t.entries)
    ensures r.Success? <==> t.reverses.None?
    ensures r.Success? ==>
              && r.value == Journal(newId, t.kind + ".reversal", ReversedAll(t.entries), Some(t.id))
              && IsJournal(r.value.entries)
    ensures r.Failure? ==> r.error == ReversalOfReversal
  {
    if t.reverses.Some? {
      return Failure(ReversalOfReversal);
    }
    ReversalKeepsJournal(t.entries);
    r := NewJournal(newId, t.kind + ".reversal", ReversedAll(t.entries), Some(t.id));
  }

  // ---- balances ----

  function MovedOf(direction: Direction, account: string): Entry -> int
  {
    (e: Entry) => if e.account == account && e.direction == direction then e.amount.minor else 0
  }

  /** What the entries move on one side of an account. */
  function Moved(es: seq<Entry>, direction: Direction, account: string): int { Sum(es, MovedOf(direction, account)) }

  /** The fold, by account type: assets and expenses are debits minus credits, the other three credits
      minus debits. */
  lemma BalanceByType(es: seq<Entry>, account: Account)
    ensures var debits, credits := Moved(es, Debit, account.id), Moved(es, Credit, account.id);
            Effect(es, account.NormalBalance(), account.id) ==
            match account.accountType
            case Asset => debits - credits
            case Expense => debits - credits
            case Liability => credits - debits
            case Equity => credits - debits
            case Revenue => credits - debits
  {
    var normal, id := account.NormalBalance(), account.id;
    SumMapped(es, es, MovedOf(normal.Opposite(), id), MinusOf(normal.Opposite(), id), -1);
    SumSplit(es, SignedOf(normal, id), MovedOf(normal, id), MinusOf(normal.Opposite(), id));
  }

  function MinusOf(direction: Direction, account: string): Entry -> int
  {
    (e: Entry) => -MovedOf(direction, account)(e)
  }

  /** `balance_of`: the reference fold, which refuses an entry in a foreign currency. */
  method BalanceOf(account: Account, entries: seq<Entry>) returns (r: Result<Money, LedgerError>)
    ensures r.Success? <==>
            forall e | e in entries && e.account == account.id :: e.amount.currency == account.currency
    ensures r.Success? ==>
              r.value == Money(Effect(entries, account.NormalBalance(), account.id), account.currency)
    ensures r.Success? ==>
              var debits, credits := Moved(entries, Debit, account.id), Moved(entries, Credit, account.id);
              r.value.minor ==
              if account.accountType.Asset? || account.accountType.Expense? then debits - credits else credits - debits
    ensures r.Failure? ==> r.error == CurrencyMismatch
  {
    var total := 0;
    for i := 0 to |entries|
      invariant total == Effect(entries[..i], account.NormalBalance(), account.id)
      invariant forall e | e in entries[..i] && e.account == account.id :: e.amount.currency == account.currency
    {
      assert entries[..i + 1][..i] == entries[..i];
      var e := entries[i];
      if e.account != account.id {
        continue;
      }
      if e.amount.currency != account.currency {
        return Failure(CurrencyMismatch);
      }
      total := total + if e.direction == account.NormalBalance() then e.amount.minor else -e.amount.minor;
    }
    assert entries[..|entries|] == entries;
    BalanceByType(entries, account);
    return Success(Money(total, account.currency));
  }
}
