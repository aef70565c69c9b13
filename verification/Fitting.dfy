/** Replaying the timeline against checking (src/ledgerflow/loadgen.py:411-487). */
module Fitting {
  import opened Timeline

  const BUFFER := 12_000
  const ROUND := 10_000

  datatype Fitted = Fitted(out: seq<Event>, balance: int, reduced: nat, skipped: nat, moved: nat)

  function ToCard(e: Event): Event { e.(accounts := e.accounts["funding" := "card"]) }

  predicate IsRent(e: Event) { Role(e, "expense", "rent") }

  /** Moving a purchase to the card changes where the money comes from and nothing else: it adds to what
      is owed there, and checking is spared. */
  lemma MovedToCard(e: Event)
    requires Shaped(e) && e.kind == "card_purchase"
    ensures var m := ToCard(e);
            && Shaped(m) && m == e.(accounts := m.accounts) && m.accounts["expense"] == e.accounts["expense"]
            && CardMove(m) == e.amount && !SpendsChecking(m) && !IntoChecking(m)
  {
    assert ToCard(e).accounts.Keys == e.accounts.Keys;
  }

  /** Rent is what is paid to the account of that name. */
  lemma RentIs(e: Event)
    ensures IsRent(e) <==> "expense" in e.accounts && e.accounts["expense"] == "rent"
  {
  }

  /** What is left of a transfer: what is there above the buffer, in round hundreds. */
  function Trimmed(balance: int): int
  {
    var t := (balance - BUFFER) / ROUND * ROUND;
    if t > 0 then t else 0
  }

  function FitOne(f: Fitted, e: Event): Fitted
  {
    if IntoChecking(e) then f.(out := f.out + [e], balance := f.balance + e.amount)
    else if !SpendsChecking(e) then f.(out := f.out + [e])
    else if e.amount <= f.balance - BUFFER then f.(out := f.out + [e], balance := f.balance - e.amount)
    else if e.kind == "transfer" then
      if Trimmed(f.balance) == 0 then f.(skipped := f.skipped + 1)
      else f.(out := f.out + [e.(amount := Trimmed(f.balance))],
                   balance := f.balance - Trimmed(f.balance), reduced := f.reduced + 1)
    else if IsRent(e) then f.(out := f.out + [e], balance := f.balance - e.amount)
    else f.(out := f.out + [ToCard(e)], moved := f.moved + 1)
  }

  function Fit(events: seq<Event>): Fitted
  {
    if events == [] then Fitted([], 0, 0, 0, 0) else FitOne(Fit(events[..|events| - 1]), events[|events| - 1])
  }

  /** `_fit_to_checking`. */
  method FitToChecking(events: seq<Event>) returns (f: Fitted)
    ensures f == Fit(events)
  {
    var balance: int, out: seq<Event> := 0, [];
    var reduced: nat, skipped: nat, moved: nat := 0, 0, 0;
    for i := 0 to |events|
      invariant Fitted(out, balance, reduced, skipped, moved) == Fit(events[..i])
    {
      var event := events[i];
      assert events[..i + 1][..i] == events[..i];
      if IntoChecking(event) {
        balance := balance + event.amount;
        out := out + [event];
        continue;
      }
      if !SpendsChecking(event) {
        out := out + [event];
        continue;
      }
      var available := balance - BUFFER;
      if event.amount <= available {
        balance := balance - event.amount;
        out := out + [event];
        continue;
      }
      if event.kind == "transfer" {
        var floored := available / ROUND * ROUND;
        var trimmed := if floored > 0 then floored else 0;
        if trimmed <= 0 {
          skipped := skipped + 1;
          continue;
        }
        balance := balance - trimmed;
        reduced := reduced + 1;
        out := out + [event.(amount := trimmed)];
        continue;
      }
      if IsRent(event) {
        balance := balance - event.amount;
        out := out + [event];
        continue;
      }
      moved := moved + 1;
      out := out + [ToCard(event)];
    }
    assert events[..|events|] == events;
    f := Fitted(out, balance, reduced, skipped, moved);
  }

  // ---- what the pass guarantees ----

  /** A prefix of the output ends in an outflow that is allowed to eat into the buffer. */
  predicate Outflow(e: Event) { SpendsChecking(e) && !IntoChecking(e) }

  /** Every outflow other than rent leaves the buffer. */
  ghost predicate BufferKept(out: seq<Event>)
  {
    forall k | 0 <= k < |out| && Outflow(out[k]) && !IsRent(out[k]) :: Checking(out[..k + 1]) >= BUFFER
  }

  ghost predicate RentFits(out: seq<Event>)
  {
    forall k | 0 <= k < |out| && Outflow(out[k]) && IsRent(out[k]) :: out[k].amount <= Checking(out[..k])
  }

  ghost predicate NeverNegative(out: seq<Event>)
  {
    forall k | 0 <= k <= |out| :: Checking(out[..k]) >= 0
  }

  ghost predicate FittedOk(f: Fitted)
  {
    AllShaped(f.out) && f.balance == Checking(f.out) && BufferKept(f.out)
  }

  lemma TrimmedFits(balance: int)
    ensures Trimmed(balance) >= 0 && Trimmed(balance) % ROUND == 0
    ensures Trimmed(balance) > 0 ==> Trimmed(balance) <= balance - BUFFER < Trimmed(balance) + ROUND
    ensures Trimmed(balance) == 0 <==> balance - BUFFER < ROUND
  {
  }

  /** Appending a shaped event whose outflow, unless it is rent, is covered above the buffer. */
  lemma PushOk(f: Fitted, e: Event, balance: int)
    requires FittedOk(f) && Shaped(e)
    requires balance == f.balance + if IntoChecking(e) then e.amount else if SpendsChecking(e) then -e.amount else 0
    requires Outflow(e) && !IsRent(e) ==> balance >= BUFFER
    ensures AllShaped(f.out + [e]) && balance == Checking(f.out + [e]) && BufferKept(f.out + [e])
  {
    var out := f.out + [e];
    ShapedMoves(e);
    PostedPush(f.out, e);
    assert out[..|out|] == out;
    forall k | 0 <= k < |out| && Outflow(out[k]) && !IsRent(out[k]) ensures Checking(out[..k + 1]) >= BUFFER {
      if k < |f.out| {
        assert out[..k + 1] == f.out[..k + 1];
      }
    }
  }

  lemma ToCardShaped(e: Event)
    requires Shaped(e) && SpendsChecking(e) && !IntoChecking(e) && e.kind != "transfer"
    ensures Shaped(ToCard(e)) && !IntoChecking(ToCard(e)) && !SpendsChecking(ToCard(e))
  {
    assert e.kind == "card_purchase";
    assert ToCard(e).accounts.Keys == e.accounts.Keys;
  }

  lemma FitOneOk(f: Fitted, e: Event)
    requires FittedOk(f) && Shaped(e)
    ensures FittedOk(FitOne(f, e))
  {
    hide BufferKept, Checking, Shaped, IntoChecking, SpendsChecking, IsRent, Trimmed;
    TrimmedFits(f.balance);
    if IntoChecking(e) || !SpendsChecking(e) {
      PushOk(f, e, f.balance + if IntoChecking(e) then e.amount else 0);
    } else if e.amount <= f.balance - BUFFER || (e.kind != "transfer" && IsRent(e)) {
      PushOk(f, e, f.balance - e.amount);
    } else if e.kind == "transfer" {
      if Trimmed(f.balance) != 0 {
        TrimShaped(e, Trimmed(f.balance));
        PushOk(f, e.(amount := Trimmed(f.balance)), f.balance - Trimmed(f.balance));
      }
    } else {
      ToCardShaped(e);
      PushOk(f, ToCard(e), f.balance);
    }
  }

  lemma TrimShaped(e: Event, amount: int)
    requires Shaped(e) && amount > 0
    ensures var t := e.(amount := amount);
            Shaped(t) && (IntoChecking(t) <==> IntoChecking(e)) && (SpendsChecking(t) <==> SpendsChecking(e))
            && (IsRent(t) <==> IsRent(e))
  {
  }

  lemma {:induction false} FitOk(events: seq<Event>)
    requires AllShaped(events)
    ensures FittedOk(Fit(events))
  {
    if events != [] {
      var front, last := events[..|events| - 1], events[|events| - 1];
      assert forall e | e in front :: e in events;
      FitOk(front);
      assert last in events;
      FitOneOk(Fit(front), last);
    } else {
      assert Checking([]) == 0;
    }
  }

  /** For every history of generated shapes: each event of the output posts; the pass's running
      balance is checking's balance in the ledger after it; every outflow other than rent leaves at
      least the buffer; and checking never goes below zero if and only if every rent fits. */
  lemma FitIsSound(events: seq<Event>)
    requires AllShaped(events)
    ensures var f := Fit(events);
            && AllShaped(f.out)
            && f.balance == Checking(f.out)
            && BufferKept(f.out)
            && (NeverNegative(f.out) <==> RentFits(f.out))
  {
    FitOk(events);
    var out := Fit(events).out;
    if RentFits(out) {
      forall k | 0 <= k <= |out| ensures Checking(out[..k]) >= 0 {
        PrefixNonNegative(out, k);
      }
    }
    if NeverNegative(out) {
      forall k | 0 <= k < |out| && Outflow(out[k]) && IsRent(out[k]) ensures out[k].amount <= Checking(out[..k]) {
        PrefixStep(out, k);
        assert Checking(out[..k + 1]) >= 0;
      }
    }
  }

  lemma PrefixStep(out: seq<Event>, k: nat)
    requires k < |out| && AllShaped(out)
    ensures Checking(out[..k + 1]) ==
            Checking(out[..k]) +
            if IntoChecking(out[k]) then out[k].amount else if SpendsChecking(out[k]) then -out[k].amount else 0
  {
    assert out[k] in out && out[..k + 1] == out[..k] + [out[k]];
    ShapedMoves(out[k]);
    PostedPush(out[..k], out[k]);
  }

  lemma {:induction false} PrefixNonNegative(out: seq<Event>, k: nat)
    requires k <= |out| && AllShaped(out) && BufferKept(out) && RentFits(out)
    ensures Checking(out[..k]) >= 0
  {
    if k > 0 {
      PrefixNonNegative(out, k - 1);
      PrefixStep(out, k - 1);
      assert out[k - 1] in out && out[k - 1].amount > 0 by { assert Shaped(out[k - 1]); }
      if Outflow(out[k - 1]) && !IsRent(out[k - 1]) {
        assert Checking(out[..k - 1 + 1]) >= BUFFER;
      }
    } else {
      assert out[..0] == [] && Checking([]) == 0;
    }
  }

  // ---- what it does to the history ----

  /** An event while `balance` is in checking: kept if it fits, comes in, or is rent; a transfer that
      does not fit shrinks to the largest round amount that does; a purchase goes to the card. */
  predicate Adapted(balance: int, e: Event, x: Event)
  {
    || (x == e && (!Outflow(e) || e.amount <= balance - BUFFER || (e.kind != "transfer" && IsRent(e))))
    || (Outflow(e) && e.amount > balance - BUFFER && e.kind == "transfer" && x == e.(amount := x.amount)
        && 0 < x.amount <= balance - BUFFER < x.amount + ROUND && x.amount % ROUND == 0)
    || (Outflow(e) && e.amount > balance - BUFFER && e.kind != "transfer" && !IsRent(e) && x == ToCard(e))
  }

  /** A transfer that does not fit and has no round amount to shrink to. */
  predicate Dropped(balance: int, e: Event)
  {
    Outflow(e) && e.kind == "transfer" && e.amount > balance - BUFFER && balance - BUFFER < ROUND
  }

  /** The output is the input, event by event and in order, with nothing adapted without need, going
      by checking's ledger balance at each event. */
  ghost predicate Adapts(events: seq<Event>, out: seq<Event>)
  {
    if events == [] then out == []
    else
      var front, e := events[..|events| - 1], events[|events| - 1];
      || (Dropped(Checking(out), e) && Adapts(front, out))
      || (out != []
          && Adapted(Checking(out[..|out| - 1]), e, out[|out| - 1])
          && Adapts(front, out[..|out| - 1]))
  }

  lemma FitOneAdapts(f: Fitted, e: Event)
    ensures var g := FitOne(f, e);
            || (g.out == f.out && g.skipped == f.skipped + 1 && Dropped(f.balance, e))
            || (|g.out| == |f.out| + 1 && g.out[..|f.out|] == f.out && g.skipped == f.skipped
                && Adapted(f.balance, e, g.out[|f.out|]))
  {
    hide IntoChecking, SpendsChecking, IsRent, Trimmed, ToCard;
    TrimmedFits(f.balance);
  }

  lemma {:induction false} FitAdapts(events: seq<Event>)
    requires AllShaped(events)
    ensures Adapts(events, Fit(events).out)
    ensures |Fit(events).out| + Fit(events).skipped == |events|
  {
    hide Dropped, Adapted, FitOne;
    if events != [] {
      var front, e := events[..|events| - 1], events[|events| - 1];
      assert forall x | x in front :: x in events;
      FitAdapts(front);
      FitOk(front);
      FitOneAdapts(Fit(front), e);
    }
  }
}
