/** Events of the synthetic history and what they mean in the ledger
    (src/ledgerflow/loadgen.py:78-88, 103-340). */
module Timeline {
  import opened Seqs
  import opened Ledger
  import opened Posting

  datatype Event = Event(at: int, kind: string, accounts: map<string, string>, amount: int, note: string)

  function AsRequest(e: Event): Request { Request(Money(e.amount, "usd"), e.accounts, []) }

  /** The entries `post_transaction` makes of an event. */
  function EntriesOf(e: Event): seq<Entry>
  {
    if SimpleRoles(e.kind).Some? && SimpleLegal(e.kind, AsRequest(e))
    then SimpleEntries(SimpleRoles(e.kind).value.0, SimpleRoles(e.kind).value.1, AsRequest(e))
    else []
  }

  /** The ledger after posting the events. */
  function Posted(events: seq<Event>): seq<Entry>
  {
    if events == [] then [] else Posted(events[..|events| - 1]) + EntriesOf(events[|events| - 1])
  }

  function Checking(events: seq<Event>): int { Effect(Posted(events), Debit, "checking") }

  /** What is owed on the card, a liability. */
  function Owed(events: seq<Event>): int { Effect(Posted(events), Credit, "card") }

  lemma PostedPush(events: seq<Event>, e: Event)
    ensures Checking(events + [e]) == Checking(events) + Effect(EntriesOf(e), Debit, "checking")
    ensures Owed(events + [e]) == Owed(events) + Effect(EntriesOf(e), Credit, "card")
  {
    assert (events + [e])[..|events|] == events;
    SumConcat(Posted(events), EntriesOf(e), SignedOf(Debit, "checking"));
    SumConcat(Posted(events), EntriesOf(e), SignedOf(Credit, "card"));
  }

  /** `accounts.get(role) == name`. */
  predicate Role(e: Event, role: string, name: string)
  {
    role in e.accounts && e.accounts[role] == name
  }

  predicate Elsewhere(e: Event, role: string)
  {
    role in e.accounts && e.accounts[role] != "checking" && e.accounts[role] != "card"
  }

  /** The event kinds the generator makes: the roles of each, and where checking and the card can
      stand. */
  predicate Shaped(e: Event)
  {
    && e.amount > 0
    && (|| (e.kind == "opening_balance" && e.accounts.Keys == {"destination", "equity"} && Elsewhere(e, "equity")
            && !Role(e, "destination", "card"))
        || (e.kind == "deposit" && e.accounts.Keys == {"destination", "income"} && Elsewhere(e, "income")
            && !Role(e, "destination", "card"))
        || ((e.kind == "card_purchase" || e.kind == "refund") && e.accounts.Keys == {"expense", "funding"}
            && Elsewhere(e, "expense"))
        || (e.kind == "transfer" && e.accounts.Keys == {"source", "destination"}
            && e.accounts["source"] != e.accounts["destination"] && !Role(e, "source", "card")))
  }

  ghost predicate AllShaped(events: seq<Event>)
  {
    forall e | e in events :: Shaped(e)
  }

  predicate Between(e: Event, kind: string, role: string, name: string, other: string, otherName: string)
  {
    e.kind == kind && e.accounts == map[role := name, other := otherName]
  }

  /** What the generator makes is shaped: opening balances, pay, gains and interest, purchases from
      checking, card, cash and the investments account, refunds to the card, and transfers out of checking. */
  lemma GeneratedIsShaped(e: Event, name: string)
    requires e.amount > 0 && name !in {"checking", "card"}
    requires || Between(e, "opening_balance", "destination", "checking", "equity", "opening")
             || Between(e, "opening_balance", "destination", name, "equity", "opening")
             || Between(e, "deposit", "destination", "checking", "income", "income")
             || Between(e, "deposit", "destination", "investments", "income", "gains")
             || Between(e, "deposit", "destination", "savings", "income", "interest")
             || Between(e, "card_purchase", "expense", name, "funding", "checking")
             || Between(e, "card_purchase", "expense", name, "funding", "card")
             || Between(e, "card_purchase", "expense", name, "funding", "cash")
             || Between(e, "card_purchase", "expense", "losses", "funding", "investments")
             || Between(e, "refund", "expense", name, "funding", "card")
             || Between(e, "transfer", "source", "checking", "destination", name)
             || Between(e, "transfer", "source", "checking", "destination", "card")
    ensures Shaped(e)
  {
    assert e.accounts.Keys == {"destination", "equity"} || e.accounts.Keys == {"destination", "income"}
           || e.accounts.Keys == {"expense", "funding"} || e.accounts.Keys == {"source", "destination"};
  }

  /** A shaped event posts: one debit and one credit. */
  lemma ShapedPosts(e: Event)
    requires Shaped(e)
    ensures SimpleRoles(e.kind).Some? && SimpleLegal(e.kind, AsRequest(e))
    ensures var (debit, credit) := SimpleRoles(e.kind).value;
            EntriesOf(e) == [Entry(e.accounts[debit], Debit, Money(e.amount, "usd")),
                             Entry(e.accounts[credit], Credit, Money(e.amount, "usd"))]
  {
  }

  predicate IntoChecking(e: Event)
  {
    || ((e.kind == "deposit" || e.kind == "opening_balance") && Role(e, "destination", "checking"))
    || (e.kind == "transfer" && Role(e, "destination", "checking"))
    || (e.kind == "refund" && Role(e, "funding", "checking"))
  }

  predicate SpendsChecking(e: Event)
  {
    Role(e, "source", "checking") || (e.kind == "card_purchase" && Role(e, "funding", "checking"))
  }

  /** How the payoff pass moves its card balance on an event. */
  function CardMove(e: Event): int
  {
    if Role(e, "funding", "card") then
      if e.kind == "card_purchase" then e.amount
      else if e.kind == "refund" then -e.amount
      else 0
    else if e.kind == "transfer" && Role(e, "destination", "card") then -e.amount
    else 0
  }

  /** The passes' own arithmetic is the ledger's, on the events the generator makes. */
  lemma ShapedMoves(e: Event)
    requires Shaped(e)
    ensures Effect(EntriesOf(e), Debit, "checking") ==
            if IntoChecking(e) then e.amount else if SpendsChecking(e) then -e.amount else 0
    ensures Effect(EntriesOf(e), Credit, "card") == CardMove(e)
  {
    ShapedPosts(e);
    var (debit, credit) := SimpleRoles(e.kind).value;
    TwoLegs(EntriesOf(e)[0], EntriesOf(e)[1], Debit, "checking");
    TwoLegs(EntriesOf(e)[0], EntriesOf(e)[1], Credit, "card");
  }

  function At(): Event -> int { (e: Event) => e.at }
}
