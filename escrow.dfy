/**
 * Escrow transactions (WeThrift/src/services/escrow.ts).
 *
 * A transaction moves through the status machine
 *   pending --fund--> funded --release--> released
 *   pending|funded --dispute--> disputed,   pending|funded --cancel--> cancelled.
 * Each service operation reads the row, checks its status and overwrites the status fields.
 * The step on one row is the pure function `Apply`; `EscrowTable` holds the table and performs
 * the guarded updates in place. Funding also charges the escrow commission on the amount.
 */
module Escrow {
  import opened Wrappers
  import opened Tally
  import Commissions

  datatype EscrowStatus = Pending | Funded | Released | Disputed | Cancelled

  /** The caller's part of a new transaction. */
  datatype EscrowDraft = EscrowDraft(groupId: string, sellerId: string, amount: real, description: string)

  datatype EscrowTransaction = EscrowTransaction(
    id: string,
    groupId: string,
    buyerId: string,
    sellerId: string,
    amount: real,
    description: string,
    transactionReference: string,
    status: EscrowStatus,
    paymentReference: Option<string>,
    disputeReason: Option<string>,
    releasedAt: Option<string>,
    commissionEarned: real,
    updatedAt: Option<string>)

  datatype EscrowError =
    | NotFound
    | NotPending
    | NotFunded
    | CannotDispute
    | CannotCancel
    | DuplicateId

  /** The error text each failure carries. */
  function Message(e: EscrowError): string {
    match e
    case NotFound => "Transaction not found"
    case NotPending => "Transaction is not in pending status"
    case NotFunded => "Transaction is not funded"
    case CannotDispute => "Transaction cannot be disputed in current status"
    case CannotCancel => "Transaction cannot be cancelled in current status"
    case DuplicateId => "duplicate key value violates unique constraint"
  }

  /** The four status-changing operations, with the values they write. */
  datatype EscrowOp =
    | Fund(paymentReference: string, at: string)
    | Release(at: string)
    | Dispute(reason: string, at: string)
    | Cancel(at: string)

  // ---------------------------------------------------------------------------------------
  // One row

  /** The row `createEscrowTransaction` inserts: status pending and the caller as buyer. */
  function NewTransaction(draft: EscrowDraft, buyerId: string, id: string, reference: string): (t: EscrowTransaction)
    ensures t.status == Pending && t.buyerId == buyerId && t.id == id && t.transactionReference == reference
    ensures t.sellerId == draft.sellerId && t.amount == draft.amount && t.groupId == draft.groupId
  {
    EscrowTransaction(id, draft.groupId, buyerId, draft.sellerId, draft.amount, draft.description, reference,
                      Pending, None, None, None, 0.0, None)
  }

  /** The guard and the update of each operation on an existing row. */
  function Apply(t: EscrowTransaction, op: EscrowOp): Result<EscrowTransaction, EscrowError> {
    match op
    case Fund(ref, at) =>
      if t.status != Pending then Err(NotPending)
      else Ok(t.(status := Funded, paymentReference := Some(ref), updatedAt := Some(at)))
    case Release(at) =>
      if t.status != Funded then Err(NotFunded)
      else Ok(t.(status := Released, releasedAt := Some(at), updatedAt := Some(at)))
    case Dispute(reason, at) =>
      if t.status != Funded && t.status != Pending then Err(CannotDispute)
      else Ok(t.(status := Disputed, disputeReason := Some(reason), updatedAt := Some(at)))
    case Cancel(at) =>
      if t.status != Pending && t.status != Funded then Err(CannotCancel)
      else Ok(t.(status := Cancelled, updatedAt := Some(at)))
  }

  /** The edges of the status machine. */
  predicate Edge(from: EscrowStatus, to: EscrowStatus) {
    (from == Pending && (to == Funded || to == Disputed || to == Cancelled))
    || (from == Funded && (to == Released || to == Disputed || to == Cancelled))
  }

  /** The status an operation moves to. */
  function Target(op: EscrowOp): EscrowStatus {
    match op
    case Fund(_, _) => Funded
    case Release(_) => Released
    case Dispute(_, _) => Disputed
    case Cancel(_) => Cancelled
  }

  /** Every successful operation follows an edge of the machine, and the target status is the
      one the operation names. */
  lemma ApplyFollowsEdge(t: EscrowTransaction, op: EscrowOp)
    ensures Apply(t, op).Ok? ==> Edge(t.status, Apply(t, op).value.status)
    ensures Apply(t, op).Ok? ==> Apply(t, op).value.status == Target(op)
  {
  }

  /** An operation succeeds exactly when its source status allows it. */
  lemma ApplyGuards(t: EscrowTransaction, op: EscrowOp)
    ensures op.Fund? ==> (Apply(t, op).Ok? <==> t.status == Pending)
    ensures op.Release? ==> (Apply(t, op).Ok? <==> t.status == Funded)
    ensures op.Dispute? || op.Cancel? ==> (Apply(t, op).Ok? <==> t.status == Pending || t.status == Funded)
  {
  }

  predicate Terminal(s: EscrowStatus) {
    s == Released || s == Disputed || s == Cancelled
  }

  /** Released, disputed and cancelled transactions admit none of the four operations. */
  lemma TerminalStatesAreFinal(t: EscrowTransaction, op: EscrowOp)
    requires Terminal(t.status)
    ensures Apply(t, op).Err?
  {
  }

  /** The parties, amount, group and reference are never changed by an operation. */
  lemma ApplyKeepsTerms(t: EscrowTransaction, op: EscrowOp)
    ensures Apply(t, op).Ok? ==>
      var u := Apply(t, op).value;
      u.id == t.id && u.buyerId == t.buyerId && u.sellerId == t.sellerId && u.amount == t.amount
      && u.groupId == t.groupId && u.transactionReference == t.transactionReference
      && u.commissionEarned == t.commissionEarned
  {
  }

  /** What a row's status implies about its other fields. */
  predicate Recorded(t: EscrowTransaction) {
    (t.status == Funded || t.status == Released ==> t.paymentReference.Some?)
    && (t.status == Released ==> t.releasedAt.Some?)
    && (t.status == Disputed ==> t.disputeReason.Some?)
    && (t.status == Pending ==> t.paymentReference.None? && t.releasedAt.None?)
  }

  /** A new row is Recorded, and every operation keeps it so: a released transaction always
      carries the payment reference its funding stored. */
  lemma RecordedInvariant(draft: EscrowDraft, buyerId: string, id: string, reference: string,
                          t: EscrowTransaction, op: EscrowOp)
    ensures Recorded(NewTransaction(draft, buyerId, id, reference))
    ensures Recorded(t) && Apply(t, op).Ok? ==> Recorded(Apply(t, op).value)
  {
  }

  /** Number of operations still possible from a status. */
  function Rank(s: EscrowStatus): nat {
    match s case Pending => 2 case Funded => 1 case _ => 0
  }

  /** Runs operations in order; a failing one leaves the row as it was. */
  function Run(t: EscrowTransaction, ops: seq<EscrowOp>): EscrowTransaction
    decreases |ops|
  {
    if ops == [] then t
    else
      var r := Apply(t, ops[0]);
      Run(if r.Ok? then r.value else t, ops[1..])
  }

  /** Number of operations of a run that succeed. */
  function Successes(t: EscrowTransaction, ops: seq<EscrowOp>): nat
    decreases |ops|
  {
    if ops == [] then 0
    else
      var r := Apply(t, ops[0]);
      (if r.Ok? then 1 else 0) + Successes(if r.Ok? then r.value else t, ops[1..])
  }

  /** However many operations are attempted, at most two succeed on a new transaction, and the
      row is Recorded at the end. */
  lemma {:induction false} RunIsBounded(t: EscrowTransaction, ops: seq<EscrowOp>)
    requires Recorded(t)
    ensures Successes(t, ops) + Rank(Run(t, ops).status) <= Rank(t.status)
    ensures Recorded(Run(t, ops))
    decreases |ops|
  {
    if ops != [] {
      var r := Apply(t, ops[0]);
      RecordedInvariant(EscrowDraft("", "", 0.0, ""), "", "", "", t, ops[0]);
      RunIsBounded(if r.Ok? then r.value else t, ops[1..]);
    }
  }

  // ---------------------------------------------------------------------------------------
  // Validation

  /** A row of the `users` query `id IN (buyer, seller)`. */
  datatype UserRow = UserRow(id: string, isActive: bool)

  datatype Validation = Validation(valid: bool, error: Option<string>)

  /** The conditions `validateEscrowTransaction` checks, all at once. `users` and `members` are
      the two query results (None: the query failed); `members` lists the active members of
      the group among buyer and seller. */
  predicate Acceptable(buyerId: string, sellerId: string, amount: real,
                       users: Option<seq<UserRow>>, members: Option<seq<string>>) {
    buyerId != sellerId && amount > 0.0
    && users.Some? && |users.value| == 2 && (forall u :: u in users.value ==> u.isActive)
    && members.Some? && |members.value| == 2
  }

  function ValidateEscrowTransaction(buyerId: string, sellerId: string, amount: real,
                                     users: Option<seq<UserRow>>, members: Option<seq<string>>): (r: Validation)
    ensures r.valid <==> r.error.None?
  {
    if buyerId == sellerId then Validation(false, Some("Buyer and seller cannot be the same person"))
    else if amount <= 0.0 then Validation(false, Some("Amount must be greater than zero"))
    else if users.None? || |users.value| != 2 then Validation(false, Some("Invalid buyer or seller"))
    else if exists u :: u in users.value && !u.isActive then Validation(false, Some("Buyer or seller account is not active"))
    else if members.None? || |members.value| != 2 then Validation(false, Some("Both users must be active members of the group"))
    else Validation(true, None)
  }

  /** Validation accepts exactly the acceptable transactions. */
  lemma ValidIffAcceptable(buyerId: string, sellerId: string, amount: real,
                           users: Option<seq<UserRow>>, members: Option<seq<string>>)
    ensures ValidateEscrowTransaction(buyerId, sellerId, amount, users, members).valid
        <==> Acceptable(buyerId, sellerId, amount, users, members)
  {
  }

  /** Checks run in order, and the first failing one names the error. */
  lemma FirstFailureReported(buyerId: string, sellerId: string, amount: real,
                             users: Option<seq<UserRow>>, members: Option<seq<string>>)
    ensures var e := ValidateEscrowTransaction(buyerId, sellerId, amount, users, members).error;
      && (buyerId == sellerId ==> e == Some("Buyer and seller cannot be the same person"))
      && (buyerId != sellerId && amount <= 0.0 ==> e == Some("Amount must be greater than zero"))
      && ((buyerId != sellerId && amount > 0.0 && (users.None? || |users.value| != 2))
          ==> e == Some("Invalid buyer or seller"))
      && ((buyerId != sellerId && amount > 0.0 && users.Some? && |users.value| == 2
           && (exists u :: u in users.value && !u.isActive))
          ==> e == Some("Buyer or seller account is not active"))
      && ((buyerId != sellerId && amount > 0.0 && users.Some? && |users.value| == 2
           && (forall u :: u in users.value ==> u.isActive) && (members.None? || |members.value| != 2))
          ==> e == Some("Both users must be active members of the group"))
  {
  }

  // ---------------------------------------------------------------------------------------
  // Statistics

  /** The `amount, status` projection of a row. */
  datatype AmountStatus = AmountStatus(amount: real, status: EscrowStatus)

  datatype EscrowStats = EscrowStats(
    totalTransactions: nat,
    totalVolume: real,
    pendingTransactions: nat,
    fundedTransactions: nat,
    releasedTransactions: nat,
    disputedTransactions: nat,
    cancelledTransactions: nat)

  function Volume(rows: seq<AmountStatus>): real {
    if rows == [] then 0.0 else rows[0].amount + Volume(rows[1..])
  }

  /** The aggregation of `getEscrowStats` over the selected rows. */
  function GetEscrowStats(rows: seq<AmountStatus>): (r: EscrowStats)
    ensures r.totalTransactions == |rows|
  {
    EscrowStats(|rows|, Volume(rows),
                CountWhere(rows, (t: AmountStatus) => t.status == Pending), CountWhere(rows, (t: AmountStatus) => t.status == Funded),
                CountWhere(rows, (t: AmountStatus) => t.status == Released), CountWhere(rows, (t: AmountStatus) => t.status == Disputed),
                CountWhere(rows, (t: AmountStatus) => t.status == Cancelled))
  }

  /** Every transaction is counted under exactly one status. */
  lemma {:induction false} StatusCountsPartition(rows: seq<AmountStatus>)
    ensures var st := GetEscrowStats(rows);
      st.pendingTransactions + st.fundedTransactions + st.releasedTransactions
      + st.disputedTransactions + st.cancelledTransactions == st.totalTransactions
  {
    if rows != [] {
      StatusCountsPartition(rows[1..]);
    }
  }

  // ---------------------------------------------------------------------------------------
  // The table

  /** The rate list `calculateCommission` sees for an escrow amount of a transaction. */
  function EscrowCommission(rates: seq<Commissions.CommissionRate>, t: EscrowTransaction): Option<Commissions.CommissionCalculation> {
    Commissions.CalculateCommission(
      Commissions.ActiveRatesFor(rates, Some(t.groupId), Commissions.EscrowService),
      Commissions.EscrowService, t.amount, Some(t.groupId), Some(t.buyerId))
  }

  class EscrowTable {
    var txns: map<string, EscrowTransaction>

    /** Each row is stored under its own id and is Recorded. */
    ghost predicate Valid()
      reads this
    {
      forall id :: id in txns ==> txns[id].id == id && Recorded(txns[id])
    }

    constructor ()
      ensures txns == map[] && Valid()
    {
      txns := map[];
    }

    /** `createEscrowTransaction`. */
    method CreateEscrowTransaction(draft: EscrowDraft, buyerId: string, id: string, reference: string)
      returns (res: Result<EscrowTransaction, EscrowError>)
      requires Valid()
      modifies this
      ensures Valid()
      ensures id in old(txns) ==> res == Err(DuplicateId) && txns == old(txns)
      ensures id !in old(txns) ==> res == Ok(NewTransaction(draft, buyerId, id, reference))
                                   && txns == old(txns)[id := res.value]
    {
      if id in txns {
        res := Err(DuplicateId);
      } else {
        var t := NewTransaction(draft, buyerId, id, reference);
        txns := txns[id := t];
        res := Ok(t);
      }
    }

    /** The shared read-check-update of release, dispute and cancel. */
    method Update(id: string, op: EscrowOp) returns (res: Result<EscrowTransaction, EscrowError>)
      requires Valid()
      modifies this
      ensures Valid()
      ensures id !in old(txns) ==> res == Err(NotFound) && txns == old(txns)
      ensures id in old(txns) ==> res == Apply(old(txns)[id], op)
      ensures id in old(txns) && res.Ok? ==> txns == old(txns)[id := res.value]
      ensures res.Err? ==> txns == old(txns)
    {
      if id !in txns {
        res := Err(NotFound);
      } else {
        res := Apply(txns[id], op);
        if res.Ok? {
          RecordedInvariant(EscrowDraft("", "", 0.0, ""), "", "", "", txns[id], op);
          txns := txns[id := res.value];
        }
      }
    }

    /** `fundEscrowTransaction`: pending to funded with the payment reference; then the escrow
        commission on the amount, when a rate applies, is written to the row and credited to
        the buyer. The returned row is the one read back after the status update. */
    method FundEscrowTransaction(id: string, paymentReference: string, at: string,
                                 rates: Commissions.RateTable, ledger: Commissions.MemberLedger)
      returns (res: Result<EscrowTransaction, EscrowError>)
      requires Valid()
      modifies this, ledger
      ensures Valid()
      ensures id !in old(txns) ==> res == Err(NotFound)
      ensures id in old(txns) ==> res == Apply(old(txns)[id], Fund(paymentReference, at))
      ensures res.Err? ==> txns == old(txns) && ledger.members == old(ledger.members)
      ensures res.Ok? && EscrowCommission(rates.rates, old(txns)[id]).None?
              ==> txns == old(txns)[id := res.value] && ledger.members == old(ledger.members)
      ensures res.Ok? && EscrowCommission(rates.rates, old(txns)[id]).Some? ==>
              var c := EscrowCommission(rates.rates, old(txns)[id]).value;
              && txns == old(txns)[id := res.value.(commissionEarned := c.commissionAmount)]
              && (old(txns)[id].buyerId != "" && Commissions.RowsOf(old(ledger.members), old(txns)[id].buyerId) == 1
                  ==> ledger.members == Commissions.Credited(old(ledger.members), old(txns)[id].buyerId, c.commissionAmount))
              && (old(txns)[id].buyerId == "" || Commissions.RowsOf(old(ledger.members), old(txns)[id].buyerId) != 1
                  ==> ledger.members == old(ledger.members))
    {
      if id !in txns {
        res := Err(NotFound);
        return;
      }
      var t := txns[id];
      res := Apply(t, Fund(paymentReference, at));
      if res.Err? {
        return;
      }
      RecordedInvariant(EscrowDraft("", "", 0.0, ""), "", "", "", t, Fund(paymentReference, at));
      txns := txns[id := res.value];
      var commission := EscrowCommission(rates.rates, t);
      if commission.Some? {
        var w := ledger.ApplyCommission(commission.value, id, Commissions.EscrowTxn);
        // the write names this table and row
        txns := txns[id := txns[id].(commissionEarned := w.amount)];
      }
    }

    method ReleaseEscrowFunds(id: string, at: string) returns (res: Result<EscrowTransaction, EscrowError>)
      requires Valid()
      modifies this
      ensures Valid()
      ensures id !in old(txns) ==> res == Err(NotFound) && txns == old(txns)
      ensures id in old(txns) ==> res == Apply(old(txns)[id], Release(at))
      ensures res.Ok? ==> txns == old(txns)[id := res.value]
      ensures res.Err? ==> txns == old(txns)
    {
      res := Update(id, Release(at));
    }

    method DisputeEscrowTransaction(id: string, reason: string, at: string) returns (res: Result<EscrowTransaction, EscrowError>)
      requires Valid()
      modifies this
      ensures Valid()
      ensures id !in old(txns) ==> res == Err(NotFound) && txns == old(txns)
      ensures id in old(txns) ==> res == Apply(old(txns)[id], Dispute(reason, at))
      ensures res.Ok? ==> txns == old(txns)[id := res.value]
      ensures res.Err? ==> txns == old(txns)
    {
      res := Update(id, Dispute(reason, at));
    }

    method CancelEscrowTransaction(id: string, at: string) returns (res: Result<EscrowTransaction, EscrowError>)
      requires Valid()
      modifies this
      ensures Valid()
      ensures id !in old(txns) ==> res == Err(NotFound) && txns == old(txns)
      ensures id in old(txns) ==> res == Apply(old(txns)[id], Cancel(at))
      ensures res.Ok? ==> txns == old(txns)[id := res.value]
      ensures res.Err? ==> txns == old(txns)
    {
      res := Update(id, Cancel(at));
    }
  }
}
