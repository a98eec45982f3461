/**
 * Loans and their repayments (WeThrift/src/services/loans.ts).
 *
 * `LoanBook` holds the `loans` and `loan_repayments` tables. Approval and rejection overwrite
 * the status without looking at it; disbursement is guarded by status 'approved' and charges
 * the loan commission on the disbursed amount; completing a repayment lowers the loan's
 * outstanding balance by the repayment's principal, clamped at zero, and marks the loan
 * completed exactly when nothing is left.
 */
module Loans {
  import opened Wrappers
  import opened Tally
  import Commissions

  datatype LoanStatus = Pending | Approved | Rejected | Disbursed | Active | Completed | Defaulted

  datatype RepaymentStatus = RepaymentPending | RepaymentCompleted | RepaymentFailed

  /** The applicant's part of a loan. */
  datatype LoanDraft = LoanDraft(groupId: string, amount: real, interestRate: real, durationMonths: int, purpose: string)

  datatype Loan = Loan(
    id: string,
    userId: string,
    groupId: string,
    amount: real,
    interestRate: real,
    durationMonths: int,
    purpose: string,
    status: LoanStatus,
    disbursedAmount: real,
    outstandingBalance: real,
    approvedBy: Option<string>,
    approvedAt: Option<string>,
    disbursedAt: Option<string>,
    completedAt: Option<string>,
    commissionEarned: real,
    updatedAt: Option<string>)

  datatype RepaymentDraft = RepaymentDraft(loanId: string, amount: real, principalAmount: real, interestAmount: real, dueDate: string)

  datatype Repayment = Repayment(
    id: string,
    loanId: string,
    userId: string,
    amount: real,
    principalAmount: real,
    interestAmount: real,
    dueDate: string,
    transactionReference: string,
    status: RepaymentStatus,
    paidAt: Option<string>,
    updatedAt: Option<string>)

  datatype LoanError = LoanNotFound | NotApproved | NoRow | DuplicateId

  function Message(e: LoanError): string {
    match e
    case LoanNotFound => "Loan not found"
    case NotApproved => "Loan must be approved before disbursement"
    case NoRow => "JSON object requested, multiple (or no) rows returned"
    case DuplicateId => "duplicate key value violates unique constraint"
  }

  // ---------------------------------------------------------------------------------------
  // Rows

  /** The row `createLoanApplication` inserts. */
  function NewLoan(draft: LoanDraft, applicantId: string, id: string): (l: Loan)
    ensures l.status == Pending && l.disbursedAmount == 0.0 && l.outstandingBalance == draft.amount
    ensures l.userId == applicantId && l.id == id && l.amount == draft.amount && l.groupId == draft.groupId
  {
    Loan(id, applicantId, draft.groupId, draft.amount, draft.interestRate, draft.durationMonths, draft.purpose,
         Pending, 0.0, draft.amount, None, None, None, None, 0.0, None)
  }

  /** The row `makeLoanRepayment` inserts. */
  function NewRepayment(draft: RepaymentDraft, userId: string, id: string, reference: string): (r: Repayment)
    ensures r.status == RepaymentPending && r.userId == userId && r.id == id && r.loanId == draft.loanId
    ensures r.principalAmount == draft.principalAmount && r.paidAt.None?
  {
    Repayment(id, draft.loanId, userId, draft.amount, draft.principalAmount, draft.interestAmount, draft.dueDate,
              reference, RepaymentPending, None, None)
  }

  /** The disbursement guard and update. */
  function Disburse(l: Loan, disbursedAmount: real, at: string): (r: Result<Loan, LoanError>)
    ensures r.Ok? <==> l.status == Approved
    ensures r.Ok? ==> r.value == l.(status := Disbursed, disbursedAmount := disbursedAmount,
                                    disbursedAt := Some(at), updatedAt := Some(at))
    ensures r.Err? ==> r.error == NotApproved
  {
    if l.status != Approved then Err(NotApproved)
    else Ok(l.(status := Disbursed, disbursedAmount := disbursedAmount, disbursedAt := Some(at), updatedAt := Some(at)))
  }

  /** `Math.max(0, outstanding - repaid)`. */
  function NewBalance(outstanding: real, repaid: real): (b: real)
    ensures b >= 0.0
    ensures b == 0.0 <==> repaid >= outstanding
    ensures repaid >= 0.0 ==> b <= outstanding || outstanding < 0.0
  {
    if outstanding - repaid > 0.0 then outstanding - repaid else 0.0
  }

  /** `updateLoanBalance` on an existing loan. */
  function BalanceUpdate(l: Loan, repaid: real, at: string): (u: Loan)
    ensures u.outstandingBalance == NewBalance(l.outstandingBalance, repaid)
    ensures u.status == Completed <==> u.outstandingBalance == 0.0
    ensures u.status == Completed || u.status == Active
    ensures u.completedAt.Some? <==> u.status == Completed
    ensures u.id == l.id && u.amount == l.amount && u.userId == l.userId && u.disbursedAmount == l.disbursedAmount
  {
    var b := NewBalance(l.outstandingBalance, repaid);
    if b == 0.0 then l.(outstandingBalance := b, status := Completed, completedAt := Some(at), updatedAt := Some(at))
    else l.(outstandingBalance := b, status := Active, completedAt := None, updatedAt := Some(at))
  }

  /** `updateRepaymentStatus` on an existing repayment: `paid_at` is written only on completion. */
  function RepaymentUpdate(r: Repayment, status: RepaymentStatus, at: string): (u: Repayment)
    ensures u.status == status
    ensures status == RepaymentCompleted ==> u.paidAt == Some(at)
    ensures status != RepaymentCompleted ==> u.paidAt == r.paidAt
    ensures u.loanId == r.loanId && u.principalAmount == r.principalAmount && u.id == r.id
  {
    if status == RepaymentCompleted then r.(status := status, paidAt := Some(at), updatedAt := Some(at))
    else r.(status := status, updatedAt := Some(at))
  }

  function SumOf(amounts: seq<real>): real {
    if amounts == [] then 0.0 else amounts[0] + SumOf(amounts[1..])
  }

  /** The balance after repayments applied one after another. */
  function BalanceAfter(outstanding: real, repaid: seq<real>): real
    decreases |repaid|
  {
    if repaid == [] then outstanding else BalanceAfter(NewBalance(outstanding, repaid[0]), repaid[1..])
  }

  /** With non-negative repayments and a non-negative start, clamping at each step is the same
      as clamping once: the balance is what is left after the total repaid, or zero. */
  lemma {:induction false} BalanceAfterRepayments(outstanding: real, repaid: seq<real>)
    requires outstanding >= 0.0
    requires forall i :: 0 <= i < |repaid| ==> repaid[i] >= 0.0
    ensures BalanceAfter(outstanding, repaid) == NewBalance(outstanding, SumOf(repaid))
    decreases |repaid|
  {
    if repaid != [] {
      SumNonNegative(repaid[1..]);
      BalanceAfterRepayments(NewBalance(outstanding, repaid[0]), repaid[1..]);
    }
  }

  lemma {:induction false} SumNonNegative(amounts: seq<real>)
    requires forall i :: 0 <= i < |amounts| ==> amounts[i] >= 0.0
    ensures SumOf(amounts) >= 0.0
  {
    if amounts != [] {
      SumNonNegative(amounts[1..]);
    }
  }

  /** A loan reached by a balance update is settled exactly when it owes nothing. */
  predicate Settled(l: Loan) {
    (l.status == Completed ==> l.outstandingBalance == 0.0 && l.completedAt.Some?)
    && (l.status == Active ==> l.outstandingBalance > 0.0)
  }

  // ---------------------------------------------------------------------------------------
  // Statistics

  /** The `amount, disbursed_amount, outstanding_balance, status` projection (columns may be null). */
  datatype LoanFigures = LoanFigures(amount: real, disbursedAmount: Option<real>, outstandingBalance: Option<real>, status: LoanStatus)

  datatype LoanStats = LoanStats(
    totalLoans: nat,
    totalAmount: real,
    totalDisbursed: real,
    totalOutstanding: real,
    pendingLoans: nat,
    approvedLoans: nat,
    activeLoans: nat,
    completedLoans: nat,
    defaultedLoans: nat)

  function TotalAmount(rows: seq<LoanFigures>): real {
    if rows == [] then 0.0 else rows[0].amount + TotalAmount(rows[1..])
  }

  /** Null disbursed amounts count as 0. */
  function TotalDisbursed(rows: seq<LoanFigures>): real {
    if rows == [] then 0.0 else rows[0].disbursedAmount.GetOr(0.0) + TotalDisbursed(rows[1..])
  }

  /** Null balances count as 0. */
  function TotalOutstanding(rows: seq<LoanFigures>): real {
    if rows == [] then 0.0 else rows[0].outstandingBalance.GetOr(0.0) + TotalOutstanding(rows[1..])
  }

  /** The aggregation of `getLoanStats`. */
  function GetLoanStats(rows: seq<LoanFigures>): (r: LoanStats)
    ensures r.totalLoans == |rows|
  {
    LoanStats(|rows|, TotalAmount(rows), TotalDisbursed(rows), TotalOutstanding(rows),
              CountWhere(rows, (l: LoanFigures) => l.status == Pending), CountWhere(rows, (l: LoanFigures) => l.status == Approved),
              CountWhere(rows, (l: LoanFigures) => l.status == Active), CountWhere(rows, (l: LoanFigures) => l.status == Completed),
              CountWhere(rows, (l: LoanFigures) => l.status == Defaulted))
  }

  /** The five reported counts miss exactly the rejected and disbursed loans. */
  lemma {:induction false} StatusCountsCover(rows: seq<LoanFigures>)
    ensures var st := GetLoanStats(rows);
      st.pendingLoans + st.approvedLoans + st.activeLoans + st.completedLoans + st.defaultedLoans
      + CountWhere(rows, (l: LoanFigures) => l.status == Rejected) + CountWhere(rows, (l: LoanFigures) => l.status == Disbursed) == st.totalLoans
  {
    if rows != [] {
      StatusCountsCover(rows[1..]);
    }
  }

  /** When no balance is null or negative, the outstanding total is never negative. */
  lemma {:induction false} OutstandingNonNegative(rows: seq<LoanFigures>)
    requires forall i :: 0 <= i < |rows| ==> rows[i].outstandingBalance.GetOr(0.0) >= 0.0
    ensures GetLoanStats(rows).totalOutstanding >= 0.0
  {
    if rows != [] {
      OutstandingNonNegative(rows[1..]);
    }
  }

  // ---------------------------------------------------------------------------------------
  // The tables

  function LoanCommission(rates: seq<Commissions.CommissionRate>, l: Loan, disbursedAmount: real): Option<Commissions.CommissionCalculation> {
    Commissions.CalculateCommission(
      Commissions.ActiveRatesFor(rates, Some(l.groupId), Commissions.LoansService),
      Commissions.LoansService, disbursedAmount, Some(l.groupId), Some(l.userId))
  }

  class LoanBook {
    var loans: map<string, Loan>
    var repayments: map<string, Repayment>

    /** Rows are stored under their ids, and completed or active loans agree with their balance. */
    ghost predicate Valid()
      reads this
    {
      (forall id :: id in loans ==> loans[id].id == id && Settled(loans[id]))
      && (forall id :: id in repayments ==> repayments[id].id == id)
    }

    constructor ()
      ensures loans == map[] && repayments == map[] && Valid()
    {
      loans := map[];
      repayments := map[];
    }

    method CreateLoanApplication(draft: LoanDraft, applicantId: string, id: string) returns (res: Result<Loan, LoanError>)
      requires Valid()
      modifies this
      ensures Valid() && repayments == old(repayments)
      ensures id in old(loans) ==> res == Err(DuplicateId) && loans == old(loans)
      ensures id !in old(loans) ==> res == Ok(NewLoan(draft, applicantId, id)) && loans == old(loans)[id := res.value]
    {
      if id in loans {
        res := Err(DuplicateId);
      } else {
        var l := NewLoan(draft, applicantId, id);
        loans := loans[id := l];
        res := Ok(l);
      }
    }

    /** `approveLoan`: no check of the previous status. */
    method ApproveLoan(id: string, approvedBy: string, at: string) returns (res: Result<Loan, LoanError>)
      requires Valid()
      modifies this
      ensures Valid() && repayments == old(repayments)
      ensures id !in old(loans) ==> res == Err(NoRow) && loans == old(loans)
      ensures id in old(loans) ==>
        res == Ok(old(loans)[id].(status := Approved, approvedBy := Some(approvedBy), approvedAt := Some(at), updatedAt := Some(at)))
        && loans == old(loans)[id := res.value]
    {
      if id !in loans {
        res := Err(NoRow);
      } else {
        var l := loans[id].(status := Approved, approvedBy := Some(approvedBy), approvedAt := Some(at), updatedAt := Some(at));
        loans := loans[id := l];
        res := Ok(l);
      }
    }

    /** `rejectLoan`: no check of the previous status. */
    method RejectLoan(id: string, at: string) returns (res: Result<Loan, LoanError>)
      requires Valid()
      modifies this
      ensures Valid() && repayments == old(repayments)
      ensures id !in old(loans) ==> res == Err(NoRow) && loans == old(loans)
      ensures id in old(loans) ==>
        res == Ok(old(loans)[id].(status := Rejected, updatedAt := Some(at))) && loans == old(loans)[id := res.value]
    {
      if id !in loans {
        res := Err(NoRow);
      } else {
        var l := loans[id].(status := Rejected, updatedAt := Some(at));
        loans := loans[id := l];
        res := Ok(l);
      }
    }

    /** `disburseLoan`: only an approved loan is disbursed; the loan commission on the disbursed
        amount, when a rate applies, is written to the row and credited to the borrower. */
    method DisburseLoan(id: string, disbursedAmount: real, at: string,
                        rates: Commissions.RateTable, ledger: Commissions.MemberLedger)
      returns (res: Result<Loan, LoanError>)
      requires Valid()
      modifies this, ledger
      ensures Valid() && repayments == old(repayments)
      ensures id !in old(loans) ==> res == Err(LoanNotFound)
      ensures id in old(loans) ==> res == Disburse(old(loans)[id], disbursedAmount, at)
      ensures res.Err? ==> loans == old(loans) && ledger.members == old(ledger.members)
      ensures res.Ok? && LoanCommission(rates.rates, old(loans)[id], disbursedAmount).None?
              ==> loans == old(loans)[id := res.value] && ledger.members == old(ledger.members)
      ensures res.Ok? && LoanCommission(rates.rates, old(loans)[id], disbursedAmount).Some? ==>
              var c := LoanCommission(rates.rates, old(loans)[id], disbursedAmount).value;
              var borrower := old(loans)[id].userId;
              && loans == old(loans)[id := res.value.(commissionEarned := c.commissionAmount)]
              && (borrower != "" && Commissions.RowsOf(old(ledger.members), borrower) == 1
                  ==> ledger.members == Commissions.Credited(old(ledger.members), borrower, c.commissionAmount))
              && (borrower == "" || Commissions.RowsOf(old(ledger.members), borrower) != 1
                  ==> ledger.members == old(ledger.members))
    {
      if id !in loans {
        res := Err(LoanNotFound);
        return;
      }
      var l := loans[id];
      res := Disburse(l, disbursedAmount, at);
      if res.Err? {
        return;
      }
      loans := loans[id := res.value];
      var commission := LoanCommission(rates.rates, l, disbursedAmount);
      if commission.Some? {
        var w := ledger.ApplyCommission(commission.value, id, Commissions.LoanTxn);
        loans := loans[id := loans[id].(commissionEarned := w.amount)];
      }
    }

    method MakeLoanRepayment(draft: RepaymentDraft, userId: string, id: string, reference: string)
      returns (res: Result<Repayment, LoanError>)
      requires Valid()
      modifies this
      ensures Valid() && loans == old(loans)
      ensures id in old(repayments) ==> res == Err(DuplicateId) && repayments == old(repayments)
      ensures id !in old(repayments) ==>
        res == Ok(NewRepayment(draft, userId, id, reference)) && repayments == old(repayments)[id := res.value]
    {
      if id in repayments {
        res := Err(DuplicateId);
      } else {
        var r := NewRepayment(draft, userId, id, reference);
        repayments := repayments[id := r];
        res := Ok(r);
      }
    }

    /** `updateLoanBalance`: a missing loan is left alone. */
    method UpdateLoanBalance(loanId: string, repaid: real, at: string)
      requires Valid()
      modifies this
      ensures Valid() && repayments == old(repayments)
      ensures loanId in old(loans) ==> loans == old(loans)[loanId := BalanceUpdate(old(loans)[loanId], repaid, at)]
      ensures loanId !in old(loans) ==> loans == old(loans)
    {
      if loanId in loans {
        loans := loans[loanId := BalanceUpdate(loans[loanId], repaid, at)];
      }
    }

    /** `updateRepaymentStatus`: completion also lowers the loan's balance by the principal. */
    method UpdateRepaymentStatus(id: string, status: RepaymentStatus, at: string) returns (res: Result<Repayment, LoanError>)
      requires Valid()
      modifies this
      ensures Valid()
      ensures id !in old(repayments) ==> res == Err(NoRow) && repayments == old(repayments) && loans == old(loans)
      ensures id in old(repayments) ==>
        res == Ok(RepaymentUpdate(old(repayments)[id], status, at)) && repayments == old(repayments)[id := res.value]
      ensures id in old(repayments) && status == RepaymentCompleted && old(repayments)[id].loanId in old(loans) ==>
        var r := old(repayments)[id];
        loans == old(loans)[r.loanId := BalanceUpdate(old(loans)[r.loanId], r.principalAmount, at)]
      ensures id in old(repayments) && (status != RepaymentCompleted || old(repayments)[id].loanId !in old(loans)) ==>
        loans == old(loans)
    {
      if id !in repayments {
        res := Err(NoRow);
        return;
      }
      var r := RepaymentUpdate(repayments[id], status, at);
      repayments := repayments[id := r];
      res := Ok(r);
      if status == RepaymentCompleted {
        UpdateLoanBalance(r.loanId, r.principalAmount, at);
      }
    }
  }
}
