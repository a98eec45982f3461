/**
 * Savings products and contributions (WeThrift/src/services/savings.ts).
 *
 * `SavingsBook` holds the `savings_products` and `contributions` tables. A product's
 * `current_amount` grows by a contribution's amount each time that contribution is marked
 * completed; progress is computed from the completed contributions themselves.
 */
module Savings {
  import opened Wrappers
  import Commissions

  datatype ContributionStatus = Pending | Completed | Failed | Cancelled

  datatype ProductDraft = ProductDraft(groupId: string, name: string, description: string, targetAmount: real)

  datatype SavingsProduct = SavingsProduct(
    id: string,
    groupId: string,
    name: string,
    description: string,
    targetAmount: real,
    createdBy: string,
    currentAmount: real,
    isActive: bool,
    updatedAt: Option<string>)

  datatype ContributionDraft = ContributionDraft(
    userId: string, groupId: string, savingsProductId: string, amount: real, paymentMethod: string)

  datatype Contribution = Contribution(
    id: string,
    userId: string,
    groupId: string,
    savingsProductId: string,
    amount: real,
    paymentMethod: string,
    transactionReference: string,
    status: ContributionStatus,
    commissionEarned: real,
    paidAt: Option<string>,
    updatedAt: Option<string>)

  datatype SavingsError = NoRow | DuplicateId

  // ---------------------------------------------------------------------------------------
  // Rows

  /** The row `createSavingsProduct` inserts. */
  function NewProduct(draft: ProductDraft, createdBy: string, id: string): (p: SavingsProduct)
    ensures p.currentAmount == 0.0 && p.isActive && p.createdBy == createdBy && p.id == id
    ensures p.groupId == draft.groupId && p.targetAmount == draft.targetAmount
  {
    SavingsProduct(id, draft.groupId, draft.name, draft.description, draft.targetAmount, createdBy, 0.0, true, None)
  }

  /** The row `makeContribution` inserts. */
  function NewContribution(draft: ContributionDraft, id: string, reference: string): (c: Contribution)
    ensures c.status == Pending && c.commissionEarned == 0.0 && c.id == id && c.paidAt.None?
    ensures c.amount == draft.amount && c.savingsProductId == draft.savingsProductId && c.userId == draft.userId
  {
    Contribution(id, draft.userId, draft.groupId, draft.savingsProductId, draft.amount, draft.paymentMethod,
                 reference, Pending, 0.0, None, None)
  }

  /** The status update of `updateContributionStatus`: `paid_at` is written only on completion. */
  function StatusUpdate(c: Contribution, status: ContributionStatus, at: string): (u: Contribution)
    ensures u.status == status
    ensures status == Completed ==> u.paidAt == Some(at)
    ensures status != Completed ==> u.paidAt == c.paidAt
    ensures u.amount == c.amount && u.savingsProductId == c.savingsProductId && u.id == c.id
  {
    if status == Completed then c.(status := status, paidAt := Some(at), updatedAt := Some(at))
    else c.(status := status, updatedAt := Some(at))
  }

  /** The contributions commission on a contribution's amount. */
  function ContributionCommission(rates: seq<Commissions.CommissionRate>, draft: ContributionDraft): Option<Commissions.CommissionCalculation> {
    Commissions.CalculateCommission(
      Commissions.ActiveRatesFor(rates, Some(draft.groupId), Commissions.ContributionsService),
      Commissions.ContributionsService, draft.amount, Some(draft.groupId), Some(draft.userId))
  }

  // ---------------------------------------------------------------------------------------
  // Progress and statistics

  /** Sum of the amounts of the completed contributions of a list. */
  function CompletedTotal(rows: seq<Contribution>): real {
    if rows == [] then 0.0
    else (if rows[0].status == Completed then rows[0].amount else 0.0) + CompletedTotal(rows[1..])
  }

  lemma {:induction false} CompletedTotalAppend(a: seq<Contribution>, b: seq<Contribution>)
    ensures CompletedTotal(a + b) == CompletedTotal(a) + CompletedTotal(b)
  {
    if a == [] {
      assert a + b == b;
    } else {
      assert (a + b)[1..] == a[1..] + b;
      CompletedTotalAppend(a[1..], b);
    }
  }

  /** Contributions that are not completed do not count towards the total. */
  lemma UnfinishedContributionsIgnored(rows: seq<Contribution>, c: Contribution)
    requires c.status != Completed
    ensures CompletedTotal(rows + [c]) == CompletedTotal(rows)
  {
    CompletedTotalAppend(rows, [c]);
  }

  /** With non-negative amounts the completed total is never negative. */
  lemma {:induction false} CompletedTotalNonNegative(rows: seq<Contribution>)
    requires forall i :: 0 <= i < |rows| ==> rows[i].amount >= 0.0
    ensures CompletedTotal(rows) >= 0.0
  {
    if rows != [] {
      CompletedTotalNonNegative(rows[1..]);
    }
  }

  /** The result of `calculateSavingsProgress`. The percentage is given only for a positive
      target; for a zero target the source computes an IEEE infinity or NaN, and for a negative
      one a finite negative number (or 100) that the model does not give. */
  datatype Progress = Progress(
    targetAmount: real,
    currentAmount: real,
    remainingAmount: real,
    progressPercentage: Option<real>,
    isCompleted: bool)

  /** `calculateSavingsProgress`: `product` is the product read (None: not found), `rows` the
      contributions of that product. */
  function CalculateSavingsProgress(product: Option<SavingsProduct>, rows: seq<Contribution>): (r: Progress)
    ensures product.None? ==> r == Progress(0.0, 0.0, 0.0, Some(0.0), false)
    ensures product.Some? ==>
      && r.targetAmount == product.value.targetAmount
      && r.currentAmount == CompletedTotal(rows)
      && r.remainingAmount == r.targetAmount - r.currentAmount
      && (r.isCompleted <==> r.currentAmount >= r.targetAmount)
      && (r.progressPercentage.Some? <==> r.targetAmount > 0.0)
  {
    if product.None? then Progress(0.0, 0.0, 0.0, Some(0.0), false)
    else
      var target := product.value.targetAmount;
      var total := CompletedTotal(rows);
      var pct := if target > 0.0 then Some(Min(total / target * 100.0, 100.0)) else None;
      Progress(target, total, target - total, pct, total >= target)
  }

  function Min(a: real, b: real): real {
    if a <= b then a else b
  }

  /** For a positive target the percentage lies in [0, 100] (with non-negative amounts), and it
      is 100 exactly when the product is completed. */
  lemma PercentageBounds(product: SavingsProduct, rows: seq<Contribution>)
    requires product.targetAmount > 0.0
    requires forall i :: 0 <= i < |rows| ==> rows[i].amount >= 0.0
    ensures var r := CalculateSavingsProgress(Some(product), rows);
      && 0.0 <= r.progressPercentage.value <= 100.0
      && (r.progressPercentage.value == 100.0 <==> r.isCompleted)
      && (r.isCompleted <==> r.remainingAmount <= 0.0)
  {
    CompletedTotalNonNegative(rows);
    RatioAgainstOne(CompletedTotal(rows), product.targetAmount);
  }

  /** For a positive denominator, the ratio is non-negative with the numerator and reaches 1
      exactly when the numerator reaches the denominator. */
  lemma RatioAgainstOne(x: real, t: real)
    requires t > 0.0
    ensures x / t >= 1.0 <==> x >= t
    ensures x >= 0.0 ==> x / t >= 0.0
  {
    var q := x / t;
    assert q * t == x;
    if q >= 1.0 {
      assert (q - 1.0) * t >= 0.0;
    } else {
      assert (1.0 - q) * t > 0.0;
    }
    if q < 0.0 {
      assert (0.0 - q) * t > 0.0;
    }
  }

  datatype SavingsStats = SavingsStats(totalProducts: nat, totalContributed: real, totalTarget: real, completionRate: real)

  function SumOf(xs: seq<real>): real {
    if xs == [] then 0.0 else xs[0] + SumOf(xs[1..])
  }

  /** `getSavingsStats` over the three query results (None: the query returned no data). */
  function GetSavingsStats(productCount: Option<nat>, contributed: Option<seq<real>>, targets: Option<seq<real>>): (r: SavingsStats)
    ensures r.totalProducts == productCount.GetOr(0)
    ensures r.totalContributed == (if contributed.Some? then SumOf(contributed.value) else 0.0)
    ensures r.totalTarget == (if targets.Some? then SumOf(targets.value) else 0.0)
  {
    var c := if contributed.Some? then SumOf(contributed.value) else 0.0;
    var t := if targets.Some? then SumOf(targets.value) else 0.0;
    SavingsStats(productCount.GetOr(0), c, t, if t > 0.0 then (c / t) * 100.0 else 0.0)
  }

  /** The completion rate is 0 whenever the total target is not positive, and it reaches 100
      exactly when the contributions cover a positive target. */
  lemma CompletionRateCases(productCount: Option<nat>, contributed: Option<seq<real>>, targets: Option<seq<real>>)
    ensures var r := GetSavingsStats(productCount, contributed, targets);
      && (r.totalTarget <= 0.0 ==> r.completionRate == 0.0)
      && (r.totalTarget > 0.0 ==> (r.completionRate >= 100.0 <==> r.totalContributed >= r.totalTarget))
  {
    var r := GetSavingsStats(productCount, contributed, targets);
    if r.totalTarget > 0.0 {
      RatioAgainstOne(r.totalContributed, r.totalTarget);
    }
  }

  // ---------------------------------------------------------------------------------------
  // The tables

  class SavingsBook {
    var products: map<string, SavingsProduct>
    var contributions: map<string, Contribution>

    ghost predicate Valid()
      reads this
    {
      (forall id :: id in products ==> products[id].id == id)
      && (forall id :: id in contributions ==> contributions[id].id == id)
    }

    constructor ()
      ensures products == map[] && contributions == map[] && Valid()
    {
      products := map[];
      contributions := map[];
    }

    /** `getGroupSavingsProducts`: the active products of a group. */
    function GroupSavingsProducts(groupId: string): (r: set<string>)
      reads this
      ensures forall id :: id in r <==> id in products && products[id].groupId == groupId && products[id].isActive
    {
      set id | id in products && products[id].groupId == groupId && products[id].isActive
    }

    method CreateSavingsProduct(draft: ProductDraft, createdBy: string, id: string) returns (res: Result<SavingsProduct, SavingsError>)
      requires Valid()
      modifies this
      ensures Valid() && contributions == old(contributions)
      ensures id in old(products) ==> res == Err(DuplicateId) && products == old(products)
      ensures id !in old(products) ==> res == Ok(NewProduct(draft, createdBy, id)) && products == old(products)[id := res.value]
    {
      if id in products {
        res := Err(DuplicateId);
      } else {
        var p := NewProduct(draft, createdBy, id);
        products := products[id := p];
        res := Ok(p);
      }
    }

    /** `deleteSavingsProduct`: a soft delete; the product drops out of every group listing. */
    method DeleteSavingsProduct(id: string)
      requires Valid()
      modifies this
      ensures Valid() && contributions == old(contributions)
      ensures id in old(products) ==> products == old(products)[id := old(products)[id].(isActive := false)]
      ensures id !in old(products) ==> products == old(products)
      ensures forall g :: id !in GroupSavingsProducts(g)
    {
      if id in products {
        products := products[id := products[id].(isActive := false)];
      }
    }

    /** `makeContribution`: a pending row with no commission, then the contributions commission
        is written to it when a rate applies. The returned row is the one inserted. */
    method MakeContribution(draft: ContributionDraft, id: string, reference: string, rates: Commissions.RateTable)
      returns (res: Result<Contribution, SavingsError>)
      requires Valid()
      modifies this
      ensures Valid() && products == old(products)
      ensures id in old(contributions) ==> res == Err(DuplicateId) && contributions == old(contributions)
      ensures id !in old(contributions) ==> res == Ok(NewContribution(draft, id, reference))
      ensures id !in old(contributions) && ContributionCommission(rates.rates, draft).None? ==>
        contributions == old(contributions)[id := res.value]
      ensures id !in old(contributions) && ContributionCommission(rates.rates, draft).Some? ==>
        contributions == old(contributions)[id := res.value.(commissionEarned := ContributionCommission(rates.rates, draft).value.commissionAmount)]
    {
      if id in contributions {
        res := Err(DuplicateId);
        return;
      }
      var c := NewContribution(draft, id, reference);
      contributions := contributions[id := c];
      res := Ok(c);
      var commission := ContributionCommission(rates.rates, draft);
      if commission.Some? {
        contributions := contributions[id := c.(commissionEarned := commission.value.commissionAmount)];
      }
    }

    /** `updateSavingsProductAmount`: a missing product is left alone. */
    method UpdateSavingsProductAmount(productId: string, amount: real, at: string)
      requires Valid()
      modifies this
      ensures Valid() && contributions == old(contributions)
      ensures productId in old(products) ==>
        products == old(products)[productId := old(products)[productId].(currentAmount := old(products)[productId].currentAmount + amount, updatedAt := Some(at))]
      ensures productId !in old(products) ==> products == old(products)
    {
      if productId in products {
        var p := products[productId];
        products := products[productId := p.(currentAmount := p.currentAmount + amount, updatedAt := Some(at))];
      }
    }

    /** `updateContributionStatus`: completing adds the amount to the product whatever the
        previous status was, so completing twice adds twice. */
    method UpdateContributionStatus(id: string, status: ContributionStatus, at: string) returns (res: Result<Contribution, SavingsError>)
      requires Valid()
      modifies this
      ensures Valid()
      ensures id !in old(contributions) ==> res == Err(NoRow) && contributions == old(contributions) && products == old(products)
      ensures id in old(contributions) ==>
        res == Ok(StatusUpdate(old(contributions)[id], status, at)) && contributions == old(contributions)[id := res.value]
      ensures id in old(contributions) && status == Completed && old(contributions)[id].savingsProductId in old(products) ==>
        var pid := old(contributions)[id].savingsProductId;
        var p := old(products)[pid];
        products == old(products)[pid := p.(currentAmount := p.currentAmount + old(contributions)[id].amount, updatedAt := Some(at))]
      ensures id in old(contributions) && (status != Completed || old(contributions)[id].savingsProductId !in old(products)) ==>
        products == old(products)
    {
      if id !in contributions {
        res := Err(NoRow);
        return;
      }
      var c := StatusUpdate(contributions[id], status, at);
      contributions := contributions[id := c];
      res := Ok(c);
      if status == Completed {
        UpdateSavingsProductAmount(c.savingsProductId, c.amount, at);
      }
    }
  }
}
