/** Money is neither created nor destroyed by any run
    (src/ledgerflow/adapters/repositories.py:319-334, src/ledgerflow/domain/ledger.py:142-154). */
module Conservation {
  import opened Seqs
  import opened Ledger
  import opened WritePath

  function DriftRow(currency: string): EntryRow -> int
  {
    (r: EntryRow) => DriftAmount(currency, r.entry)
  }

  /** `global_drift`: debits minus credits over the whole ledger, in one currency. */
  function GlobalDrift(rows: seq<EntryRow>, currency: string): int { Sum(rows, DriftRow(currency)) }

  ghost predicate FlightBalanced(ch: Chart, f: Flight)
  {
    && (f.req.Snapshots? ==> f.phase.Started?)
    && (f.Built() ==> IsJournal(f.legs) && Resolved(ch, f.legs))
    && (f.HasRows() ==> LegsOf(f.rows) == f.legs)
  }

  ghost predicate DriftFree(rows: seq<EntryRow>)
  {
    forall currency :: GlobalDrift(rows, currency) == 0
  }

  ghost predicate ConservationInv(ch: Chart, s: State)
  {
    && DriftFree(s.db.entries)
    && (forall r | r in s.db.entries :: ResolvedEntry(ch, r.entry))
    && (forall t | t in s.flights :: FlightBalanced(ch, s.flights[t]))
  }

  lemma StatementBalanced(ch: Chart, s: State, t: nat, f: Flight, a: Action)
    requires t in s.flights && f == s.flights[t] && !f.req.Snapshots?
    requires FlightBalanced(ch, f) && forall r | r in s.db.entries :: ResolvedEntry(ch, r.entry)
    ensures var s' := Statement(ch, s, t, f, a);
            OnlyFlight(s, s', t) && (t in s'.flights ==> FlightBalanced(ch, s'.flights[t]))
  {
    hide IsJournal, CachedBalance, ToCheck, TxnFree, EventFree;
    if a.Build? && f.req.Reverse? {
      var original := TxnLegs(s.db, f.req.target);
      if IsJournal(original) {
        ReversalKeepsJournal(original);
        MirrorResolved(ch, s.db, f.req.target);
      }
    } else if a.InsertEntries? {
      assert LegsOf(Number(s.nextEntry, f.req.txnId, f.legs)) == f.legs;
    }
  }

  lemma MirrorResolved(ch: Chart, db: Db, target: string)
    requires forall r | r in db.entries :: ResolvedEntry(ch, r.entry)
    ensures Resolved(ch, ReversedAll(TxnLegs(db, target)))
  {
    var rows := RowsOf(db.entries, target);
    forall e | e in ReversedAll(LegsOf(rows)) ensures ResolvedEntry(ch, e) {
      var i :| 0 <= i < |rows| && e == rows[i].entry.Reversed();
      assert rows[i] in rows && ResolvedEntry(ch, rows[i].entry);
    }
  }

  lemma CommitKeepsDrift(entries: seq<EntryRow>, rows: seq<EntryRow>)
    requires DriftFree(entries) && Balanced(LegsOf(rows))
    ensures DriftFree(entries + rows)
  {
    forall currency ensures GlobalDrift(entries + rows, currency) == 0 {
      SumConcat(entries, rows, DriftRow(currency));
      SumMapped(rows, LegsOf(rows), DriftRow(currency), DriftOf(currency), 1);
      BalancedIn(LegsOf(rows), currency);
      assert GlobalDrift(entries, currency) == 0;
    }
  }

  lemma StepKeepsConservation(ch: Chart, s: State, a: Action)
    requires ConservationInv(ch, s)
    ensures ConservationInv(ch, Apply(ch, s, a))
  {
    hide GlobalDrift, Balanced, Statement, TriggerPasses, ValidEntry;
    if a.Begin? || a.DropSnapshots? || a.t !in s.flights || a.Abort? || a.ReadSnapshot? {
    } else if s.flights[a.t].req.Snapshots? {
    } else if a.Commit? {
      var f := s.flights[a.t];
      if f.phase.Finished? {
        CommitKeepsDrift(s.db.entries, f.rows);
        forall r | r in f.rows ensures ResolvedEntry(ch, r.entry) {
          var i :| 0 <= i < |f.rows| && f.rows[i] == r;
          assert LegsOf(f.rows)[i] == r.entry && r.entry in f.legs;
        }
      }
    } else {
      StatementBalanced(ch, s, a.t, s.flights[a.t], a);
    }
  }

  lemma {:induction false} RunKeepsConservation(ch: Chart, actions: seq<Action>)
    ensures ConservationInv(ch, Run(ch, INITIAL, actions))
  {
    if actions != [] {
      RunKeepsConservation(ch, actions[..|actions| - 1]);
      StepKeepsConservation(ch, Run(ch, INITIAL, actions[..|actions| - 1]), actions[|actions| - 1]);
    }
  }

  // ---- per-account balances ----

  function SideSign(normal: Direction): int { if normal == Debit then 1 else -1 }

  /** An account's balance as it enters the books' equation: debit-normal accounts on one side,
      credit-normal ones on the other. */
  function SidedBalance(ch: Chart, rows: seq<EntryRow>, currency: string): string -> int
  {
    (id: string) =>
      if id in ch && ch[id].currency == currency
      then SideSign(ch[id].NormalBalance()) * Balance(rows, ch[id]) else 0
  }

  function SidedEntry(ch: Chart, e: Entry, currency: string): string -> int
  {
    (id: string) =>
      if id in ch && ch[id].currency == currency
      then SideSign(ch[id].NormalBalance()) * SignedAmount(ch[id].NormalBalance(), ch[id].id, e) else 0
  }

  /** Summing the sided balances over the chart of accounts is the global drift. */
  lemma {:induction false} SidedBalancesAreDrift(ch: Chart, accounts: seq<string>, rows: seq<EntryRow>,
                                     currency: string)
    requires Distinct(accounts) && forall id | id in ch :: id in accounts && ch[id].id == id
    requires forall r | r in rows :: ResolvedEntry(ch, r.entry)
    ensures Sum(accounts, SidedBalance(ch, rows, currency)) == GlobalDrift(rows, currency)
  {
    if rows == [] {
      SumZero(accounts, SidedBalance(ch, rows, currency));
    } else {
      var front, r := rows[..|rows| - 1], rows[|rows| - 1];
      assert rows == front + [r] && r in rows;
      SidedBalancesAreDrift(ch, accounts, front, currency);
      forall id | id in accounts
        ensures SidedBalance(ch, rows, currency)(id) ==
                SidedBalance(ch, front, currency)(id) + SidedEntry(ch, r.entry, currency)(id)
      {
      }
      SumSplit(accounts, SidedBalance(ch, rows, currency), SidedBalance(ch, front, currency),
               SidedEntry(ch, r.entry, currency));
      OneEntry(ch, accounts, r, currency);
    }
  }

  lemma OneEntry(ch: Chart, accounts: seq<string>, r: EntryRow, currency: string)
    requires Distinct(accounts) && forall id | id in ch :: id in accounts && ch[id].id == id
    requires ResolvedEntry(ch, r.entry)
    ensures Sum(accounts, SidedEntry(ch, r.entry, currency)) == DriftRow(currency)(r)
  {
    var weigh := SidedEntry(ch, r.entry, currency);
    forall id | id in accounts && id != r.entry.account ensures weigh(id) == 0 {
      assert id in ch ==> ch[id].id == id;
    }
    SumOne(accounts, weigh, r.entry.account);
  }

  /** After any run: debits equal credits in every currency, and the balances of all accounts,
      debit-normal against credit-normal, cancel out. */
  lemma BooksBalance(ch: Chart, accounts: seq<string>, actions: seq<Action>, currency: string)
    requires Distinct(accounts) && forall id | id in ch :: id in accounts && ch[id].id == id
    ensures var rows := Run(ch, INITIAL, actions).db.entries;
            && GlobalDrift(rows, currency) == 0
            && Sum(accounts, SidedBalance(ch, rows, currency)) == 0
  {
    RunKeepsConservation(ch, actions);
    SidedBalancesAreDrift(ch, accounts, Run(ch, INITIAL, actions).db.entries, currency);
  }

  // ---- the accounting equation ----

  /** What an account adds to the total of its type, in one currency. */
  function TypeBalance(ch: Chart, rows: seq<EntryRow>, currency: string, of: AccountType): string -> int
  {
    (id: string) =>
      if id in ch && ch[id].currency == currency && ch[id].accountType == of then Balance(rows, ch[id]) else 0
  }

  function TypeTotal(ch: Chart, accounts: seq<string>, rows: seq<EntryRow>, currency: string, of: AccountType): int
  {
    Sum(accounts, TypeBalance(ch, rows, currency, of))
  }

  /** Sided balances are assets and expenses on one side, the other types on the other. */
  lemma {:induction false} SidesByType(ch: Chart, accounts: seq<string>, rows: seq<EntryRow>, currency: string)
    ensures Sum(accounts, SidedBalance(ch, rows, currency)) ==
            TypeTotal(ch, accounts, rows, currency, Asset) + TypeTotal(ch, accounts, rows, currency, Expense)
            - TypeTotal(ch, accounts, rows, currency, Liability) - TypeTotal(ch, accounts, rows, currency, Equity)
            - TypeTotal(ch, accounts, rows, currency, Revenue)
  {
    hide Balance;
    if accounts != [] {
      SidesByType(ch, accounts[..|accounts| - 1], rows, currency);
    }
  }

  /** After any run, in every currency: assets plus expenses equal liabilities plus equity plus revenue. */
  lemma AccountingEquation(ch: Chart, accounts: seq<string>, actions: seq<Action>, currency: string)
    requires Distinct(accounts) && forall id | id in ch :: id in accounts && ch[id].id == id
    ensures var rows := Run(ch, INITIAL, actions).db.entries;
            TypeTotal(ch, accounts, rows, currency, Asset) + TypeTotal(ch, accounts, rows, currency, Expense) ==
            TypeTotal(ch, accounts, rows, currency, Liability) + TypeTotal(ch, accounts, rows, currency, Equity)
            + TypeTotal(ch, accounts, rows, currency, Revenue)
  {
    BooksBalance(ch, accounts, actions, currency);
    SidesByType(ch, accounts, Run(ch, INITIAL, actions).db.entries, currency);
  }

  /** The balance read from the tables, by account type. */
  lemma TableBalanceByType(rows: seq<EntryRow>, account: Account)
    ensures var debits, credits := Moved(LegsOf(rows), Debit, account.id), Moved(LegsOf(rows), Credit, account.id);
            Balance(rows, account) ==
            if account.accountType.Asset? || account.accountType.Expense? then debits - credits else credits - debits
  {
    SumMapped(rows, LegsOf(rows), SignedRow(account.NormalBalance(), account.id),
              SignedOf(account.NormalBalance(), account.id), 1);
    BalanceByType(LegsOf(rows), account);
  }
}
