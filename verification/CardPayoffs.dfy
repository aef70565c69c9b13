/** Paying the card down on its due dates (src/ledgerflow/loadgen.py:343-408). Due dates and random
    draws are inputs. */
module CardPayoffs {
  import opened Wrappers
  import opened Seqs
  import opened Timeline

  const NOTE: string := "credit card payment"

  /** By due date: pay in full, or pay this fraction. */
  type Draws = nat -> Option<real>

  datatype Payoff = Payoff(out: seq<Event>, balance: int, next: nat)

  function Original(): Event -> bool { (e: Event) => e.note != NOTE }

  function Payment(at: int, owed: int, draw: Option<real>): Event
  {
    var amount := if draw.None? then owed else (owed as real * draw.value).Floor;
    Event(at, "transfer", map["source" := "checking", "destination" := "card"], if amount > 1 then amount else 1, NOTE)
  }

  /** A payment in full clears what is owed; another is its fraction of it, cut to whole minor units, and
      at least one. */
  lemma PaymentMeaning(at: int, owed: int, draw: Option<real>)
    requires owed > 0
    ensures var p := Payment(at, owed, draw);
            && p.at == at && p.kind == "transfer" && p.note == "credit card payment"
            && p.accounts == map["source" := "checking", "destination" := "card"]
            && match draw
               case None => p.amount == owed
               case Some(fraction) =>
                 var share := owed as real * fraction;
                 if share < 1.0 then p.amount == 1 else p.amount as real <= share < p.amount as real + 1.0
  {
  }

  /** The next due date comes up. */
  function PayOne(p: Payoff, dues: seq<int>, draws: Draws): Payoff
    requires p.next < |dues|
  {
    if p.balance > 0 then
      var payment := Payment(dues[p.next], p.balance, draws(p.next));
      Payoff(p.out + [payment], p.balance - payment.amount, p.next + 1)
    else p.(next := p.next + 1)
  }

  /** Every due date up to a time, or every one left. */
  function PayUntil(p: Payoff, dues: seq<int>, draws: Draws, until: Option<int>): Payoff
    decreases |dues| - p.next
  {
    if p.next < |dues| && (until.None? || dues[p.next] <= until.value)
    then PayUntil(PayOne(p, dues, draws), dues, draws, until)
    else p
  }

  function PostOne(p: Payoff, e: Event): Payoff
  {
    p.(out := p.out + [e], balance := p.balance + CardMove(e))
  }

  function Walk(events: seq<Event>, dues: seq<int>, draws: Draws): Payoff
  {
    if events == [] then Payoff([], 0, 0)
    else
      var e := events[|events| - 1];
      PostOne(PayUntil(Walk(events[..|events| - 1], dues, draws), dues, draws, Some(e.at)), e)
  }

  /** The list before the final sort. */
  function Merged(events: seq<Event>, dues: seq<int>, draws: Draws): Payoff
  {
    PayUntil(Walk(SortBy(events, At()), dues, draws), dues, draws, None)
  }

  /** `_with_card_payoffs`. */
  method WithCardPayoffs(events: seq<Event>, dues: seq<int>, draws: Draws) returns (out: seq<Event>)
    ensures out == SortBy(Merged(events, dues, draws).out, At())
  {
    var sorted := SortBy(events, At());
    out := [];
    var balance, next := 0, 0;
    for i := 0 to |sorted|
      invariant Payoff(out, balance, next) == Walk(sorted[..i], dues, draws)
    {
      var event := sorted[i];
      ghost var before := Payoff(out, balance, next);
      assert sorted[..i + 1][..i] == sorted[..i];
      while next < |dues| && dues[next] <= event.at
        invariant PayUntil(Payoff(out, balance, next), dues, draws, Some(event.at)) ==
                    PayUntil(before, dues, draws, Some(event.at))
        decreases |dues| - next
      {
        var when := dues[next];
        if balance > 0 {
          var payment := Payment(when, balance, draws(next));
          out := out + [payment];
          balance := balance - payment.amount;
        }
        next := next + 1;
      }
      out := out + [event];
      if Role(event, "funding", "card") {
        if event.kind == "card_purchase" {
          balance := balance + event.amount;
        } else if event.kind == "refund" {
          balance := balance - event.amount;
        }
      } else if event.kind == "transfer" && Role(event, "destination", "card") {
        balance := balance - event.amount;
      }
    }
    assert sorted[..|sorted|] == sorted;
    ghost var before := Payoff(out, balance, next);
    while next < |dues|
      invariant PayUntil(Payoff(out, balance, next), dues, draws, None) == PayUntil(before, dues, draws, None)
      decreases |dues| - next
    {
      var when := dues[next];
      if balance > 0 {
        var payment := Payment(when, balance, draws(next));
        out := out + [payment];
        balance := balance - payment.amount;
      }
      next := next + 1;
    }
    out := SortBy(out, At());
  }

  // ---- what the pass guarantees ----

  ghost predicate Ascending(dues: seq<int>)
  {
    forall i, j | 0 <= i < j < |dues| :: dues[i] < dues[j]
  }

  ghost predicate Fractions(draws: Draws)
  {
    forall i: nat :: draws(i).Some? ==> 0.0 <= draws(i).value <= 1.0
  }

  /** Each payment is between one and what the ledger says is owed on the card right then. */
  ghost predicate PaymentsOk(out: seq<Event>)
  {
    forall k | 0 <= k < |out| && !Original()(out[k]) :: 1 <= out[k].amount <= Owed(out[..k])
  }

  /** On this due date there is a payment if and only if something is owed after everything earlier. */
  ghost predicate DueAt(out: seq<Event>, due: int, k: nat)
  {
    && k <= |out|
    && (forall i | 0 <= i < k :: out[i].at < due)
    && (forall i | k <= i < |out| :: out[i].at >= due)
    && (if Owed(out[..k]) > 0 then k < |out| && !Original()(out[k]) && out[k].at == due
        else forall i | k <= i < |out| && !Original()(out[i]) :: out[i].at != due)
  }

  ghost predicate DueMet(out: seq<Event>, due: int) { exists k: nat :: DueAt(out, due, k) }

  ghost predicate LedgerOk(p: Payoff)
  {
    AllShaped(p.out) && p.balance == Owed(p.out) && PaymentsOk(p.out)
  }

  ghost predicate OrderOk(p: Payoff, dues: seq<int>)
  {
    && p.next <= |dues|
    && SortedBy(p.out, At())
    && (forall x, j | x in p.out && p.next <= j < |dues| :: x.at < dues[j])
    && (forall j | 0 <= j < p.next :: DueMet(p.out, dues[j]))
  }

  /** Nothing in the output and no due date passed is later than `t`. */
  ghost predicate Upto(p: Payoff, dues: seq<int>, t: int)
    requires p.next <= |dues|
  {
    && (forall x | x in p.out :: x.at <= t)
    && (forall j | 0 <= j < p.next :: dues[j] <= t)
  }

  lemma PaymentShaped(at: int, owed: int, draw: Option<real>)
    requires owed > 0 && (draw.Some? ==> 0.0 <= draw.value <= 1.0)
    ensures var x := Payment(at, owed, draw);
            Shaped(x) && !Original()(x) && 1 <= x.amount <= owed && CardMove(x) == -x.amount && x.at == at
  {
    if draw.Some? {
      assert owed as real * draw.value <= owed as real;
    }
  }

  lemma PushLedger(p: Payoff, e: Event, balance: int, next: nat)
    requires LedgerOk(p) && Shaped(e) && balance == p.balance + CardMove(e)
    requires !Original()(e) ==> 1 <= e.amount <= p.balance
    ensures LedgerOk(Payoff(p.out + [e], balance, next))
  {
    var out := p.out + [e];
    ShapedMoves(e);
    PostedPush(p.out, e);
    forall k | 0 <= k < |out| && !Original()(out[k]) ensures 1 <= out[k].amount <= Owed(out[..k]) {
      if k < |p.out| {
        assert out[..k] == p.out[..k];
      } else {
        assert out[..k] == p.out;
      }
    }
  }

  /** Appending something later than a due date already passed, and no payment on it, changes
      nothing there. */
  lemma PushKeepsDueAt(out: seq<Event>, e: Event, due: int, k: nat)
    requires DueAt(out, due, k) && e.at >= due && (Original()(e) || e.at > due)
    ensures DueAt(out + [e], due, k)
  {
    hide Owed;
    assert (out + [e])[..k] == out[..k];
  }

  lemma PushKeepsDue(out: seq<Event>, e: Event, due: int)
    requires DueMet(out, due) && e.at >= due && (Original()(e) || e.at > due)
    ensures DueMet(out + [e], due)
  {
    var k: nat :| DueAt(out, due, k);
    PushKeepsDueAt(out, e, due, k);
  }

  lemma PushSorted(out: seq<Event>, e: Event)
    requires SortedBy(out, At()) && forall x | x in out :: x.at <= e.at
    ensures SortedBy(out + [e], At())
  {
    forall i, j | 0 <= i < j < |out + [e]| ensures At()((out + [e])[i]) <= At()((out + [e])[j]) {
      if j == |out| {
        assert out[i] in out;
      } else {
        assert At()(out[i]) <= At()(out[j]);
      }
    }
  }

  lemma PayOneLedger(p: Payoff, dues: seq<int>, draws: Draws)
    requires LedgerOk(p) && p.next < |dues| && Fractions(draws)
    ensures LedgerOk(PayOne(p, dues, draws)) && PayOne(p, dues, draws).next == p.next + 1
    ensures Filter(PayOne(p, dues, draws).out, Original()) == Filter(p.out, Original())
  {
    if p.balance > 0 {
      var x := Payment(dues[p.next], p.balance, draws(p.next));
      PaymentShaped(dues[p.next], p.balance, draws(p.next));
      PushLedger(p, x, p.balance - x.amount, p.next + 1);
      FilterPush(p.out, x, Original());
    }
  }

  lemma PayOneOrder(p: Payoff, dues: seq<int>, draws: Draws)
    requires LedgerOk(p) && OrderOk(p, dues) && p.next < |dues| && Ascending(dues) && Fractions(draws)
    ensures OrderOk(PayOne(p, dues, draws), dues)
  {
    var due, q := dues[p.next], PayOne(p, dues, draws);
    DueNow(p, dues, draws);
    hide SortedBy, AllShaped, PaymentsOk, Filter, DueMet;
    if p.balance > 0 {
      var x := Payment(due, p.balance, draws(p.next));
      PaymentShaped(due, p.balance, draws(p.next));
      PushSorted(p.out, x);
      forall j | 0 <= j < p.next ensures DueMet(q.out, dues[j]) {
        PushKeepsDue(p.out, x, dues[j]);
      }
    }
  }

  /** The due date that comes up is met. */
  lemma DueNow(p: Payoff, dues: seq<int>, draws: Draws)
    requires LedgerOk(p) && OrderOk(p, dues) && p.next < |dues| && Ascending(dues) && Fractions(draws)
    ensures DueMet(PayOne(p, dues, draws).out, dues[p.next])
  {
    var due, q := dues[p.next], PayOne(p, dues, draws);
    hide SortedBy, AllShaped, PaymentsOk, Filter;
    assert p.out[..|p.out|] == p.out;
    if p.balance > 0 {
      PaymentShaped(due, p.balance, draws(p.next));
      assert q.out[..|p.out|] == p.out;
    }
    assert DueAt(q.out, due, |p.out|);
  }

  lemma PayOneUpto(p: Payoff, dues: seq<int>, draws: Draws, t: int)
    requires p.next < |dues| && Upto(p, dues, t) && dues[p.next] <= t
    ensures Upto(PayOne(p, dues, draws), dues, t)
  {
  }

  lemma {:induction false} PayUntilOk(p: Payoff, dues: seq<int>, draws: Draws, until: Option<int>)
    requires LedgerOk(p) && OrderOk(p, dues) && Ascending(dues) && Fractions(draws)
    ensures var q := PayUntil(p, dues, draws, until);
            && LedgerOk(q) && OrderOk(q, dues)
            && Filter(q.out, Original()) == Filter(p.out, Original())
            && (until.None? ==> q.next == |dues|)
            && (until.Some? ==> forall j | q.next <= j < |dues| :: until.value < dues[j])
            && (until.Some? && Upto(p, dues, until.value) ==> Upto(q, dues, until.value))
    decreases |dues| - p.next
  {
    hide LedgerOk, PayOne, Filter, SortedBy, DueMet;
    if p.next < |dues| && (until.None? || dues[p.next] <= until.value) {
      PayOneLedger(p, dues, draws);
      PayOneOrder(p, dues, draws);
      if until.Some? && Upto(p, dues, until.value) {
        PayOneUpto(p, dues, draws, until.value);
      }
      hide OrderOk, Upto;
      PayUntilOk(PayOne(p, dues, draws), dues, draws, until);
    }
  }

  lemma PostOneOk(p: Payoff, dues: seq<int>, e: Event)
    requires LedgerOk(p) && OrderOk(p, dues) && Shaped(e) && Original()(e)
    requires Upto(p, dues, e.at) && forall j | p.next <= j < |dues| :: e.at < dues[j]
    ensures LedgerOk(PostOne(p, e)) && OrderOk(PostOne(p, e), dues) && Upto(PostOne(p, e), dues, e.at)
    ensures Filter(PostOne(p, e).out, Original()) == Filter(p.out, Original()) + [e]
  {
    PushLedger(p, e, p.balance + CardMove(e), p.next);
    PushSorted(p.out, e);
    FilterPush(p.out, e, Original());
    forall j | 0 <= j < p.next ensures DueMet(PostOne(p, e).out, dues[j]) {
      PushKeepsDue(p.out, e, dues[j]);
    }
  }

  lemma EmptyOk(dues: seq<int>)
    ensures LedgerOk(Payoff([], 0, 0)) && OrderOk(Payoff([], 0, 0), dues) && Filter([], Original()) == []
  {
    assert Owed([]) == 0;
  }

  lemma StepOk(p: Payoff, dues: seq<int>, draws: Draws, e: Event)
    requires LedgerOk(p) && OrderOk(p, dues) && Upto(p, dues, e.at)
    requires Shaped(e) && Original()(e) && Ascending(dues) && Fractions(draws)
    ensures var q := PostOne(PayUntil(p, dues, draws, Some(e.at)), e);
            && LedgerOk(q) && OrderOk(q, dues) && Upto(q, dues, e.at)
            && Filter(q.out, Original()) == Filter(p.out, Original()) + [e]
  {
    hide LedgerOk, Filter, SortedBy, DueMet, PayUntil, PostOne, Shaped;
    PayUntilOk(p, dues, draws, Some(e.at));
    PostOneOk(PayUntil(p, dues, draws, Some(e.at)), dues, e);
  }

  lemma LaterUpto(p: Payoff, dues: seq<int>, t: int, later: int)
    requires p.next <= |dues| && Upto(p, dues, t) && t <= later
    ensures Upto(p, dues, later)
  {
  }

  /** What holds after walking the events. */
  ghost predicate WalkedTo(p: Payoff, events: seq<Event>, dues: seq<int>)
  {
    && LedgerOk(p) && OrderOk(p, dues) && Filter(p.out, Original()) == events
    && (if events == [] then p == Payoff([], 0, 0) else Upto(p, dues, events[|events| - 1].at))
  }

  lemma WalkedOn(p: Payoff, front: seq<Event>, e: Event, dues: seq<int>, draws: Draws)
    requires WalkedTo(p, front, dues) && (front != [] ==> front[|front| - 1].at <= e.at)
    requires Shaped(e) && Original()(e) && Ascending(dues) && Fractions(draws)
    ensures WalkedTo(PostOne(PayUntil(p, dues, draws, Some(e.at)), e), front + [e], dues)
  {
    hide LedgerOk, Filter, SortedBy, DueMet, PayUntil, PostOne, Shaped;
    if front != [] {
      LaterUpto(p, dues, front[|front| - 1].at, e.at);
    }
    StepOk(p, dues, draws, e);
  }

  lemma {:induction false} WalkOk(events: seq<Event>, dues: seq<int>, draws: Draws)
    requires AllShaped(events) && (forall e | e in events :: Original()(e)) && SortedBy(events, At())
    requires Ascending(dues) && Fractions(draws)
    ensures WalkedTo(Walk(events, dues, draws), events, dues)
  {
    if events == [] {
      EmptyOk(dues);
    } else {
      hide WalkedTo, Shaped, PostOne, PayUntil;
      var front, e := events[..|events| - 1], events[|events| - 1];
      assert (forall x | x in front :: x in events) && e in events && events == front + [e];
      WalkOk(front, dues, draws);
      if front != [] {
        assert At()(front[|front| - 1]) <= At()(e);
      }
      WalkedOn(Walk(front, dues, draws), front, e, dues, draws);
    }
  }

  /** For every history of generated shapes, whatever the draws: the final sort changes nothing; the
      output without its payments is the input in time order, ties in their original order; the
      carried balance is what the ledger says is owed; every payment lies between one and what is
      owed then; and each due date has one exactly if something is owed. */
  lemma PayoffsAreSound(events: seq<Event>, dues: seq<int>, draws: Draws, t: int)
    requires AllShaped(events) && (forall e | e in events :: Original()(e))
    requires Ascending(dues) && Fractions(draws)
    ensures var p := Merged(events, dues, draws);
            && SortBy(p.out, At()) == p.out
            && AllShaped(p.out)
            && Filter(p.out, Original()) == SortBy(events, At())
            && Filter(Filter(p.out, Original()), Keyed(At(), t)) == Filter(events, Keyed(At(), t))
            && p.balance == Owed(p.out)
            && PaymentsOk(p.out)
            && (forall due | due in dues :: DueMet(p.out, due))
  {
    var sorted := SortBy(events, At());
    SortIsSorted(events, At());
    SortIsStable(events, At(), t);
    WalkOk(sorted, dues, draws);
    PayUntilOk(Walk(sorted, dues, draws), dues, draws, None);
    SortOfSorted(Merged(events, dues, draws).out, At());
  }
}
