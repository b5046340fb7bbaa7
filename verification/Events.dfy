/** The steps of the generator as events: what a step does, and what it means that it was taken. */
module Events {
  import opened Common
  import opened Workload
  import opened Machine

  datatype Event =
    | Rest                       // the generator had stopped already
    | Finish                     // too few entries are left for another transfer
    | GiveUp                     // every entry left belongs to a picked wallet
    | Broke(i: nat)              // the sender at `i` has no coin that is worth the price
    | Send(i: nat, j: nat)       // the wallet at `i` sends its coin number `j`
    | Receive(i: nat)            // the wallet at `i` receives
    | Emit                       // the transfer is complete

  ghost predicate NoneFree(s: State) {
    forall x | x in s.list :: x in Picked(s.partial)
  }

  /** The entry at `i` is the first one in circular order from the cursor whose wallet is not yet picked. */
  ghost predicate NextFree(s: State, i: nat)
    requires s.Placed()
  {
    && i < |s.list| && s.list[i] !in Picked(s.partial)
    && FirstFree(s.list, s.cursor, Picked(s.partial), 0) == Some(i)
  }

  /** Coin number `j` of wallet `x` is the first one that is worth the price. */
  ghost predicate FirstWorth(p: Params, l: Ledger, x: nat, j: nat) {
    && j < p.coins && p.Debit() <= Held(l, (x, x * p.coins + j))
    && forall i: nat | i < j :: Held(l, (x, p.Minted(x)[i].id)) < p.Debit()
  }

  ghost predicate NoneWorth(p: Params, l: Ledger, x: nat) {
    forall i: nat | i < p.coins :: Held(l, (x, p.Minted(x)[i].id)) < p.Debit()
  }

  ghost predicate Happens(p: Params, s: State, e: Event, r: State)
    requires s.Placed()
  {
    && (s.status == Running <==> !e.Rest?)
    && match e
       case Rest => r == s
       case Finish => s.AtBoundary() && |s.list| < p.Size() && r == s.(status := Complete)
       case GiveUp =>
         && !(s.AtBoundary() && |s.list| < p.Size())
         && (|s.partial.senders| < p.senders || |s.partial.receivers| < p.receivers)
         && NoneFree(s) && r == s.(status := Abandoned)
       case Broke(i) =>
         && !(s.AtBoundary() && |s.list| < p.Size()) && |s.partial.senders| < p.senders
         && NextFree(s, i) && NoneWorth(p, s.ledger, s.list[i]) && r == s.(status := OutOfFunds)
       case Send(i, j) =>
         && !(s.AtBoundary() && |s.list| < p.Size()) && |s.partial.senders| < p.senders
         && NextFree(s, i) && FirstWorth(p, s.ledger, s.list[i], j)
         && r == TakeSender(p, s, i, s.list[i] * p.coins + j)
       case Receive(i) =>
         && !(s.AtBoundary() && |s.list| < p.Size())
         && p.senders <= |s.partial.senders| && |s.partial.receivers| < p.receivers
         && NextFree(s, i) && r == TakeReceiver(p, s, i)
       case Emit =>
         && p.senders <= |s.partial.senders| && p.receivers <= |s.partial.receivers|
         && !(s.AtBoundary() && |s.list| < p.Size())
         && r == s.(transfers := s.transfers + [s.partial], partial := NO_TRANSFER)
  }

  lemma SenderEvent(p: Params, s: State) returns (e: Event)
    requires s.Placed() && s.status == Running && !(s.AtBoundary() && |s.list| < p.Size())
    requires |s.partial.senders| < p.senders
    ensures Happens(p, s, e, PickSender(p, s))
  {
    ScanFinds(s.list, s.cursor, Picked(s.partial));
    match FirstFree(s.list, s.cursor, Picked(s.partial), 0) {
      case None => e := GiveUp;
      case Some(i) =>
        match FirstFit(s.ledger, s.list[i], p.Minted(s.list[i]), p.Debit(), 0) {
          case None => e := Broke(i);
          case Some(j) => e := Send(i, j);
        }
    }
  }

  lemma ReceiverEvent(p: Params, s: State) returns (e: Event)
    requires s.Placed() && s.status == Running && !(s.AtBoundary() && |s.list| < p.Size())
    requires p.senders <= |s.partial.senders| && |s.partial.receivers| < p.receivers
    ensures Happens(p, s, e, PickReceiver(p, s))
  {
    ScanFinds(s.list, s.cursor, Picked(s.partial));
    match FirstFree(s.list, s.cursor, Picked(s.partial), 0) {
      case None => e := GiveUp;
      case Some(i) => e := Receive(i);
    }
  }

  /** Every step is one of the events. */
  lemma EventOf(p: Params, s: State) returns (e: Event)
    requires s.Placed()
    ensures Happens(p, s, e, Step(p, s))
  {
    hide PickSender, PickReceiver, Happens;
    if s.status != Running || (s.AtBoundary() && |s.list| < p.Size())
       || (p.senders <= |s.partial.senders| && p.receivers <= |s.partial.receivers|) {
      e := PlainEvent(p, s);
    } else if |s.partial.senders| < p.senders {
      e := SenderEvent(p, s);
    } else {
      e := ReceiverEvent(p, s);
    }
  }

  lemma PlainEvent(p: Params, s: State) returns (e: Event)
    requires s.Placed()
    requires s.status != Running || (s.AtBoundary() && |s.list| < p.Size())
             || (p.senders <= |s.partial.senders| && p.receivers <= |s.partial.receivers|)
    ensures Happens(p, s, e, Step(p, s))
  {
    e := if s.status != Running then Rest else if s.AtBoundary() && |s.list| < p.Size() then Finish else Emit;
  }

  /** The event of step number `k`. */
  lemma EventAt(p: Params, order: seq<nat>, k: nat) returns (e: Event)
    ensures Happens(p, At(p, order, k), e, At(p, order, k + 1))
  {
    hide Happens;
    e := EventOf(p, At(p, order, k));
  }
}
