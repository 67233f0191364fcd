/** The database as the repositories, the recorder and the transaction manager use it. */
module Database {
  import opened Wrappers
  import opened Entities
  import opened Storage
  import opened IdempotencyKey
  import opened Tables
  import opened Ledger
  import opened Events
  import opened Outbox
  import opened Environment

  function WithInvoice(d: Data, r: InvoiceRow): Data {
    d.(books := d.books.(invoices := d.books.invoices[r.id := r]))
  }

  function WithBilling(d: Data, r: BillingRow): Data {
    d.(books := d.books.(billings := d.books.billings[r.id := r]))
  }

  function WithPayment(d: Data, r: PaymentRow): Data {
    d.(books := d.books.(payments := d.books.payments[r.id := r]))
  }

  function WithRow(d: Data, x: string, r: OutboxRow): Data {
    d.(outbox := d.outbox[x := r])
  }

  /** Committed data, and the working copy of the open transaction if there is one.

  The flag `tx` of every operation is the context's: it says whether the statement runs inside the open
  transaction or straight on the pool, where it commits by itself. */
  class Db {
    const world: World
    const failFirstAppend: bool   // the recorder's decorator: fail the first append, pass all others on
    var committed: Data
    var working: Data
    var open: bool
    var appendFailed: bool

    constructor (world: World, failFirstAppend: bool)
      ensures this.world == world && this.failFirstAppend == failFirstAppend
      ensures committed == NO_DATA && !open && !appendFailed
    {
      this.world, this.failFirstAppend := world, failFirstAppend;
      committed, working, open, appendFailed := NO_DATA, NO_DATA, false, false;
    }

    /** The data a statement sees. */
    function View(tx: bool): Data
      reads this
    {
      if tx then working else committed
    }

    // ---- Transactions ----

    method Begin() returns (failure: Option<Error>)
      requires !open
      modifies this`committed, this`working, this`open, world`tick
      ensures committed == old(committed) && world.tick == old(world.tick) + 1
      ensures failure.None? ==> open && working == committed
      ensures failure.Some? ==> !open && failure.value == Infrastructure
      ensures failure.None? <==> !world.faulty(old(world.tick))
    {
      var fails := world.Fault();
      if fails {
        return Some(Infrastructure);
      }
      open, working := true, committed;
      return None;
    }

    /** All of the working copy, or nothing. */
    method Commit() returns (failure: Option<Error>)
      requires open
      modifies this`committed, this`working, this`open, world`tick
      ensures !open && world.tick == old(world.tick) + 1
      ensures committed == if failure.None? then old(working) else old(committed)
      ensures failure.None? <==> !world.faulty(old(world.tick))
    {
      var fails := world.Fault();
      open := false;
      if fails {
        return Some(Infrastructure);
      }
      committed := working;
      return None;
    }

    /** A rollback that reports an error has still discarded the working copy. */
    method Rollback() returns (failure: Option<Error>)
      requires open
      modifies this`committed, this`working, this`open, world`tick
      ensures !open && committed == old(committed) && world.tick == old(world.tick) + 1
      ensures failure.None? <==> !world.faulty(old(world.tick))
    {
      var fails := world.Fault();
      open := false;
      return if fails then Some(Infrastructure) else None;
    }

    method Write(tx: bool, d: Data)
      requires tx ==> open
      modifies this`committed, this`working
      ensures View(tx) == d && View(!tx) == old(View(!tx))
    {
      if tx {
        working := d;
      } else {
        committed := d;
      }
    }

    // ---- Invoices ----

    method SaveInvoice(tx: bool, r: InvoiceRow) returns (failure: Option<Error>)
      requires tx ==> open
      modifies this`committed, this`working, world`tick
      ensures world.tick > old(world.tick) && View(!tx) == old(View(!tx))
      ensures var d := old(View(tx));
              && View(tx) == (if failure.None? then WithInvoice(d, r) else d)
              && failure == if world.faulty(old(world.tick)) || r.id in d.books.invoices then Some(Infrastructure)
                            else None
    {
      var fails := world.Fault();
      var d := View(tx);
      if fails || r.id in d.books.invoices {
        return Some(Infrastructure);
      }
      Write(tx, WithInvoice(d, r));
      return None;
    }

    method GetInvoice(tx: bool, id: string) returns (r: Result<InvoiceRow, Error>)
      modifies world`tick
      ensures world.tick > old(world.tick)
      ensures var rows := View(tx).books.invoices;
              && r == (if world.faulty(old(world.tick)) then Err(Infrastructure)
                       else if id !in rows then Err(InvoiceNotFound)
                       else RehydrateInvoice(InvoiceToColumns(rows[id])))
              && (r.Ok? && StorableInvoice(rows[id]) ==> r.value == rows[id])
              && (!world.faulty(old(world.tick)) && id in rows && StorableInvoice(rows[id]) ==> r.Ok?)
    {
      var fails := world.Fault();
      if fails {
        return Err(Infrastructure);
      }
      if id !in View(tx).books.invoices {
        return Err(InvoiceNotFound);
      }
      InvoiceRoundTrip(View(tx).books.invoices[id]);
      return RehydrateInvoice(InvoiceToColumns(View(tx).books.invoices[id]));
    }

    method UpdateInvoice(tx: bool, r: InvoiceRow) returns (failure: Option<Error>)
      requires tx ==> open
      modifies this`committed, this`working, world`tick
      ensures world.tick > old(world.tick) && View(!tx) == old(View(!tx))
      ensures var d := old(View(tx));
              && failure == (if world.faulty(old(world.tick)) then Some(Infrastructure)
                             else if r.id !in d.books.invoices then Some(InvoiceNotFound)
                             else None)
              && View(tx) == if failure.None? then WithInvoice(d, OverwriteInvoice(d.books.invoices[r.id], r)) else d
    {
      var fails := world.Fault();
      var d := View(tx);
      if fails {
        return Some(Infrastructure);
      }
      if r.id !in d.books.invoices {
        return Some(InvoiceNotFound);
      }
      Write(tx, WithInvoice(d, OverwriteInvoice(d.books.invoices[r.id], r)));
      return None;
    }

    // ---- Billings ----

    method SaveBilling(tx: bool, r: BillingRow) returns (failure: Option<Error>)
      requires tx ==> open
      modifies this`committed, this`working, world`tick
      ensures world.tick > old(world.tick) && View(!tx) == old(View(!tx))
      ensures var d := old(View(tx));
              && View(tx) == (if failure.None? then WithBilling(d, r) else d)
              && failure == if world.faulty(old(world.tick)) then Some(Infrastructure)
                            else if BillingCollides(d.books, r) then Some(BillingAlreadyExists)
                            else None
    {
      var fails := world.Fault();
      var d := View(tx);
      if fails {
        return Some(Infrastructure);
      }
      if BillingCollides(d.books, r) {
        return Some(BillingAlreadyExists);
      }
      Write(tx, WithBilling(d, r));
      return None;
    }

    method GetBilling(tx: bool, id: string) returns (r: Result<BillingRow, Error>)
      modifies world`tick
      ensures world.tick == old(world.tick) + 1
      ensures var rows := View(tx).books.billings;
              && r == (if world.faulty(old(world.tick)) then Err(Infrastructure)
                       else if id !in rows then Err(BillingNotFound)
                       else RehydrateBilling(BillingToColumns(rows[id])))
              && (r.Ok? && StorableBilling(rows[id]) ==> r.value == rows[id])
              && (!world.faulty(old(world.tick)) && id in rows && StorableBilling(rows[id]) ==> r.Ok?)
    {
      var fails := world.Fault();
      if fails {
        return Err(Infrastructure);
      }
      if id !in View(tx).books.billings {
        return Err(BillingNotFound);
      }
      BillingRoundTrip(View(tx).books.billings[id]);
      return RehydrateBilling(BillingToColumns(View(tx).books.billings[id]));
    }

    /** The billing of an invoice. The variant that locks the row reads the same: here one request runs at a time. */
    method GetBillingByInvoice(tx: bool, invoiceId: string) returns (r: Result<BillingRow, Error>)
      modifies world`tick
      ensures world.tick > old(world.tick)
      ensures var t := View(tx).books;
              && (r.Ok? ==> HasBilling(t, invoiceId))
              && (r == Err(BillingNotFound) ==> !HasBilling(t, invoiceId))
              && (world.faulty(old(world.tick)) ==> r == Err(Infrastructure))
              && (r.Ok? && RowsKept(t) ==>
                    exists b :: b in t.billings && t.billings[b].invoiceId == invoiceId && r.value == t.billings[b])
              && (!world.faulty(old(world.tick)) && !HasBilling(t, invoiceId) ==> r == Err(BillingNotFound))
              && (!world.faulty(old(world.tick)) && HasBilling(t, invoiceId) && RowsKept(t) ==> r.Ok?)
    {
      var fails := world.Fault();
      if fails {
        return Err(Infrastructure);
      }
      var t := View(tx).books;
      if !HasBilling(t, invoiceId) {
        return Err(BillingNotFound);
      }
      var b :| b in t.billings && t.billings[b].invoiceId == invoiceId;
      BillingRoundTrip(t.billings[b]);
      return RehydrateBilling(BillingToColumns(t.billings[b]));
    }

    method UpdateBilling(tx: bool, r: BillingRow) returns (failure: Option<Error>)
      requires tx ==> open
      modifies this`committed, this`working, world`tick
      ensures world.tick > old(world.tick) && View(!tx) == old(View(!tx))
      ensures var d := old(View(tx));
              && failure == (if world.faulty(old(world.tick)) then Some(Infrastructure)
                             else if r.id !in d.books.billings then Some(BillingNotFound)
                             else None)
              && View(tx) == if failure.None? then WithBilling(d, OverwriteBilling(d.books.billings[r.id], r)) else d
    {
      var fails := world.Fault();
      var d := View(tx);
      if fails {
        return Some(Infrastructure);
      }
      if r.id !in d.books.billings {
        return Some(BillingNotFound);
      }
      Write(tx, WithBilling(d, OverwriteBilling(d.books.billings[r.id], r)));
      return None;
    }

    // ---- Payments ----

    method HasApprovedByInvoice(tx: bool, invoiceId: string) returns (r: Result<bool, Error>)
      modifies world`tick
      ensures world.tick > old(world.tick)
      ensures r == if world.faulty(old(world.tick)) then Err(Infrastructure)
              else Ok(HasApproved(View(tx).books, invoiceId))
    {
      var fails := world.Fault();
      return if fails then Err(Infrastructure) else Ok(HasApproved(View(tx).books, invoiceId));
    }

    method GetPayment(tx: bool, billingId: string, attemptNumber: int) returns (r: Result<PaymentRow, Error>)
      modifies world`tick
      ensures world.tick > old(world.tick)
      ensures var t := View(tx).books;
              && (r.Ok? ==> HasAttempt(t, billingId, attemptNumber))
              && (r == Err(PaymentNotFound) ==> !HasAttempt(t, billingId, attemptNumber))
              && (world.faulty(old(world.tick)) ==> r == Err(Infrastructure))
              && (r.Ok? && RowsKept(t) ==> r.value.billingId == billingId && r.value.attemptNumber == attemptNumber
                                           && r.value.id in t.payments && t.payments[r.value.id] == r.value)
              && (!world.faulty(old(world.tick)) && !HasAttempt(t, billingId, attemptNumber) ==>
                  r == Err(PaymentNotFound))
              && (!world.faulty(old(world.tick)) && HasAttempt(t, billingId, attemptNumber) && RowsKept(t) ==> r.Ok?)
              && r != Err(PaymentAlreadyExists)
    {
      var fails := world.Fault();
      if fails {
        return Err(Infrastructure);
      }
      var t := View(tx).books;
      if !HasAttempt(t, billingId, attemptNumber) {
        return Err(PaymentNotFound);
      }
      var p :| p in t.payments && t.payments[p].billingId == billingId && t.payments[p].attemptNumber == attemptNumber;
      PaymentRoundTrip(t.payments[p]);
      return RehydratePayment(PaymentToColumns(t.payments[p]));
    }

    method SavePayment(tx: bool, r: PaymentRow) returns (failure: Option<Error>)
      requires tx ==> open
      modifies this`committed, this`working, world`tick
      ensures world.tick > old(world.tick) && View(!tx) == old(View(!tx))
      ensures var d := old(View(tx));
              && View(tx) == (if failure.None? then WithPayment(d, r) else d)
              && failure == if world.faulty(old(world.tick)) then Some(Infrastructure)
                            else if PaymentCollides(d.books, r) then Some(PaymentAlreadyExists)
                            else None
    {
      var fails := world.Fault();
      var d := View(tx);
      if fails {
        return Some(Infrastructure);
      }
      if PaymentCollides(d.books, r) {
        return Some(PaymentAlreadyExists);
      }
      Write(tx, WithPayment(d, r));
      return None;
    }

    /** An update to Approved can collide with another approved payment of the invoice. */
    method UpdatePayment(tx: bool, r: PaymentRow) returns (failure: Option<Error>)
      requires tx ==> open
      modifies this`committed, this`working, world`tick
      ensures world.tick > old(world.tick) && View(!tx) == old(View(!tx))
      ensures var d := old(View(tx));
              && failure == (if world.faulty(old(world.tick)) then Some(Infrastructure)
                             else if r.id !in d.books.payments then Some(PaymentNotFound)
                             else if r.status == ApprovedPayment && ApprovedElsewhere(d.books, r.id)
                             then Some(PaymentAlreadyExists)
                             else None)
              && View(tx) == if failure.None? then WithPayment(d, OverwritePayment(d.books.payments[r.id], r)) else d
    {
      var fails := world.Fault();
      var d := View(tx);
      if fails {
        return Some(Infrastructure);
      }
      if r.id !in d.books.payments {
        return Some(PaymentNotFound);
      }
      if r.status == ApprovedPayment && ApprovedElsewhere(d.books, r.id) {
        return Some(PaymentAlreadyExists);
      }
      Write(tx, WithPayment(d, OverwritePayment(d.books.payments[r.id], r)));
      return None;
    }

    // ---- The outbox recorder ----

    /** The decorator has no append left to fail. */
    predicate AppendsPass()
      reads this`appendFailed
    {
      !failFirstAppend || appendFailed
    }

    predicate CanAppend(tx: bool, id: string)
      reads this, world
    {
      AppendsPass() && !world.faulty(world.tick) && id !in View(tx).outbox
    }

    method Append(tx: bool, emitter: ModuleName, e: Event) returns (failure: Option<Error>)
      requires tx ==> open
      modifies this`committed, this`working, this`appendFailed, world`tick
      ensures world.tick >= old(world.tick) && (!old(AppendsPass()) ==> world.tick == old(world.tick))
      ensures View(!tx) == old(View(!tx)) && AppendsPass()
      ensures var d, x := old(View(tx)), e.meta.eventId;
              && (failure.None? <==> old(CanAppend(tx, x)))
              && (failure.None? ==> x in View(tx).outbox
                                    && View(tx).outbox[x] == Appended(e, emitter, View(tx).outbox[x].recordedAt)
                                    && View(tx).outbox[x] == OutboxRow(e, emitter, RecordPending,
                                                                       world.clock(old(world.tick) + 1),
                                                                       None, None, None)
                                    && View(tx) == d.(outbox := d.outbox[x := View(tx).outbox[x]]))
              && (failure.Some? ==> View(tx) == d)
    {
      if failFirstAppend && !appendFailed {
        appendFailed := true;
        return Some(SimulatedAppendFailure);
      }
      var fails := world.Fault();
      var d := View(tx);
      if fails || e.meta.eventId in d.outbox {
        return Some(Infrastructure);
      }
      var now := world.Now();
      Write(tx, d.(outbox := d.outbox[e.meta.eventId := Appended(e, emitter, now)]));
      return None;
    }

    /** Overwrites status, processing time and failure columns of the row, whatever they were; no row, no effect. */
    method MarkProcessed(tx: bool, id: string, at: Time) returns (failure: Option<Error>)
      requires tx ==> open
      modifies this`committed, this`working, world`tick
      ensures world.tick > old(world.tick) && View(!tx) == old(View(!tx))
      ensures var d := old(View(tx));
              && View(tx) == (if failure.None? && id in d.outbox then WithRow(d, id, d.outbox[id].AsProcessed(at))
                              else d)
              && (failure.None? && id in d.outbox ==>
                    View(tx).outbox[id] == d.outbox[id].(status := RecordProcessed, processedAt := Some(at),
                                                         failedAt := None, errorMessage := None))
              && (failure.None? <==> !world.faulty(old(world.tick)))
    {
      var fails := world.Fault();
      var d := View(tx);
      if fails {
        return Some(Infrastructure);
      }
      if id in d.outbox {
        Write(tx, WithRow(d, id, d.outbox[id].AsProcessed(at)));
      }
      return None;
    }

    method MarkFailed(tx: bool, id: string, at: Time, message: Error) returns (failure: Option<Error>)
      requires tx ==> open
      modifies this`committed, this`working, world`tick
      ensures world.tick > old(world.tick) && View(!tx) == old(View(!tx))
      ensures var d := old(View(tx));
              && View(tx) == (if failure.None? && id in d.outbox then WithRow(d, id, d.outbox[id].AsFailed(at, message))
                              else d)
              && (failure.None? && id in d.outbox ==>
                    View(tx).outbox[id] == d.outbox[id].(status := RecordFailed, failedAt := Some(at),
                                                         errorMessage := Some(message)))
              && (failure.None? <==> !world.faulty(old(world.tick)))
    {
      var fails := world.Fault();
      var d := View(tx);
      if fails {
        return Some(Infrastructure);
      }
      if id in d.outbox {
        Write(tx, WithRow(d, id, d.outbox[id].AsFailed(at, message)));
      }
      return None;
    }
  }
}
