/**
 * Commission rates and their application (WeThrift/src/services/commissions.ts).
 *
 * The `commission_rates` table is a sequence in the order the rate query returns it,
 * newest first. `calculateCommission` picks a rate from the active rates of one service type:
 * the first group-specific rate whose tier contains the amount, otherwise the first general
 * (group-less) one, and charges `amount * rate_percentage / 100`. `applyCommission` names the
 * table whose `commission_earned` column receives the amount and credits the member's running
 * total in `group_members`.
 */
module Commissions {
  import opened Wrappers

  datatype ServiceType = SavingsService | LoansService | ContributionsService | EscrowService | GeneralService

  datatype CommissionRate = CommissionRate(
    id: string,
    groupId: Option<string>,
    serviceType: ServiceType,
    minimumAmount: real,
    maximumAmount: Option<real>,
    ratePercentage: real,
    isActive: bool,
    createdBy: string)

  /** The caller-supplied part of a rate. */
  datatype RateDraft = RateDraft(
    groupId: Option<string>,
    serviceType: ServiceType,
    minimumAmount: real,
    maximumAmount: Option<real>,
    ratePercentage: real)

  datatype CommissionCalculation = CommissionCalculation(
    serviceType: ServiceType,
    amount: real,
    ratePercentage: real,
    commissionAmount: real,
    groupId: Option<string>,
    userId: Option<string>)

  /** The kinds of transaction a commission can be applied to. */
  datatype TransactionType = ContributionTxn | LoanTxn | EscrowTxn

  /** The column write `applyCommission` performs: `UPDATE <table> SET commission_earned = amount WHERE id = rowId`. */
  datatype CommissionWrite = CommissionWrite(table: string, rowId: string, amount: real)

  /** One `group_members` row as far as commissions are concerned. */
  datatype MemberCommission = MemberCommission(userId: string, groupId: string, commissionEarned: Option<real>)

  // ---------------------------------------------------------------------------------------
  // Rate selection

  /** Whether a rate is returned by `getCommissionRates(groupId, serviceType)`: active, of the
      service type, and (when a non-empty group is given) belonging to that group or to none. */
  predicate Listed(rate: CommissionRate, groupId: Option<string>, serviceType: ServiceType) {
    rate.isActive && rate.serviceType == serviceType
    && (!Filled(groupId) || rate.groupId == groupId || rate.groupId.None?)
  }

  /** JavaScript truthiness of an optional string. */
  predicate Filled(s: Option<string>) {
    s.Some? && s.value != ""
  }

  /** The rate query, in table order (see ActiveRatesForConcat). */
  function ActiveRatesFor(rates: seq<CommissionRate>, groupId: Option<string>, serviceType: ServiceType): (r: seq<CommissionRate>)
    ensures |r| <= |rates|
    ensures forall x :: x in r <==> x in rates && Listed(x, groupId, serviceType)
    ensures |rates| == 1 ==> r == if Listed(rates[0], groupId, serviceType) then rates else []
  {
    if rates == [] then []
    else
      var rest := ActiveRatesFor(rates[1..], groupId, serviceType);
      assert forall x :: x in rates <==> x == rates[0] || x in rates[1..];
      if Listed(rates[0], groupId, serviceType) then [rates[0]] + rest else rest
  }

  /** The query filters each part of a split table on its own, so rows keep their table order. */
  lemma {:induction false} ActiveRatesForConcat(a: seq<CommissionRate>, b: seq<CommissionRate>,
                                                groupId: Option<string>, serviceType: ServiceType)
    ensures ActiveRatesFor(a + b, groupId, serviceType) == ActiveRatesFor(a, groupId, serviceType) + ActiveRatesFor(b, groupId, serviceType)
  {
    if a == [] {
      assert a + b == b;
    } else {
      assert (a + b)[0] == a[0];
      assert (a + b)[1..] == a[1..] + b;
      ActiveRatesForConcat(a[1..], b, groupId, serviceType);
    }
  }

  /** The listed rates split around table row i: those of the rows before it, then row i, then the rest. */
  lemma ListedAround(table: seq<CommissionRate>, groupId: Option<string>, serviceType: ServiceType, i: nat)
    requires i < |table| && Listed(table[i], groupId, serviceType)
    ensures ActiveRatesFor(table, groupId, serviceType)
         == ActiveRatesFor(table[..i], groupId, serviceType) + [table[i]] + ActiveRatesFor(table[i + 1..], groupId, serviceType)
  {
    assert table == table[..i] + ([table[i]] + table[i + 1..]);
    ActiveRatesForConcat(table[..i], [table[i]] + table[i + 1..], groupId, serviceType);
    ActiveRatesForConcat([table[i]], table[i + 1..], groupId, serviceType);
  }

  /** The tier test of both `find` calls. */
  predicate InTier(rate: CommissionRate, amount: real) {
    rate.minimumAmount <= amount && (rate.maximumAmount.None? || amount <= rate.maximumAmount.value)
  }

  /** `rate.group_id === groupId && <tier>`: a row's group is never `undefined`, so with no
      group given this never holds. */
  predicate GroupMatch(rate: CommissionRate, groupId: Option<string>, amount: real) {
    groupId.Some? && rate.groupId == groupId && InTier(rate, amount)
  }

  /** `rate.group_id === null && <tier>`. */
  predicate GeneralMatch(rate: CommissionRate, amount: real) {
    rate.groupId.None? && InTier(rate, amount)
  }

  /** Index of the first group-specific match. */
  function FirstGroupMatch(rates: seq<CommissionRate>, groupId: Option<string>, amount: real): (r: Option<nat>)
    ensures r.Some? ==> r.value < |rates| && GroupMatch(rates[r.value], groupId, amount)
    ensures r.Some? ==> forall j :: 0 <= j < r.value ==> !GroupMatch(rates[j], groupId, amount)
    ensures r.None? <==> forall j :: 0 <= j < |rates| ==> !GroupMatch(rates[j], groupId, amount)
  {
    if rates == [] then None
    else if GroupMatch(rates[0], groupId, amount) then Some(0)
    else
      var rest := FirstGroupMatch(rates[1..], groupId, amount);
      if rest.None? then None else Some(rest.value + 1)
  }

  /** Index of the first general match. */
  function FirstGeneralMatch(rates: seq<CommissionRate>, amount: real): (r: Option<nat>)
    ensures r.Some? ==> r.value < |rates| && GeneralMatch(rates[r.value], amount)
    ensures r.Some? ==> forall j :: 0 <= j < r.value ==> !GeneralMatch(rates[j], amount)
    ensures r.None? <==> forall j :: 0 <= j < |rates| ==> !GeneralMatch(rates[j], amount)
  {
    if rates == [] then None
    else if GeneralMatch(rates[0], amount) then Some(0)
    else
      var rest := FirstGeneralMatch(rates[1..], amount);
      if rest.None? then None else Some(rest.value + 1)
  }

  /** `find(group-specific) || find(general)`. */
  function ChooseRate(rates: seq<CommissionRate>, groupId: Option<string>, amount: real): Option<CommissionRate> {
    var g := FirstGroupMatch(rates, groupId, amount);
    if g.Some? then Some(rates[g.value])
    else
      var h := FirstGeneralMatch(rates, amount);
      if h.Some? then Some(rates[h.value]) else None
  }

  /** `calculateCommission` on the list the rate query returned. */
  function CalculateCommission(rates: seq<CommissionRate>, serviceType: ServiceType, amount: real,
                               groupId: Option<string>, userId: Option<string>): (r: Option<CommissionCalculation>)
    ensures r.Some? ==> r.value.commissionAmount * 100.0 == amount * r.value.ratePercentage
    ensures r.Some? ==> r.value.serviceType == serviceType && r.value.amount == amount && r.value.userId == userId
  {
    if |rates| == 0 then None
    else
      var chosen := ChooseRate(rates, groupId, amount);
      if chosen.None? then None
      else
        var rate := chosen.value;
        Some(CommissionCalculation(
          serviceType, amount, rate.ratePercentage, (amount * rate.ratePercentage) / 100.0,
          if Filled(rate.groupId) then rate.groupId else groupId, userId))
  }

  /** No listed rate, or no rate whose tier holds the amount, means no commission; otherwise there is one. */
  lemma CommissionExistsIff(rates: seq<CommissionRate>, serviceType: ServiceType, amount: real,
                            groupId: Option<string>, userId: Option<string>)
    ensures CalculateCommission(rates, serviceType, amount, groupId, userId).Some?
        <==> exists i :: 0 <= i < |rates| && (GroupMatch(rates[i], groupId, amount) || GeneralMatch(rates[i], amount))
  {
    if exists i :: 0 <= i < |rates| && (GroupMatch(rates[i], groupId, amount) || GeneralMatch(rates[i], amount)) {
      var i :| 0 <= i < |rates| && (GroupMatch(rates[i], groupId, amount) || GeneralMatch(rates[i], amount));
      if !GroupMatch(rates[i], groupId, amount) {
        assert FirstGeneralMatch(rates, amount).Some?;
      }
    }
  }

  /** A matching group-specific rate beats every general one: the first such rate in list order is charged. */
  lemma GroupSpecificWins(rates: seq<CommissionRate>, serviceType: ServiceType, amount: real,
                          groupId: Option<string>, userId: Option<string>, i: nat)
    requires i < |rates| && GroupMatch(rates[i], groupId, amount)
    requires forall j :: 0 <= j < i ==> !GroupMatch(rates[j], groupId, amount)
    ensures var r := CalculateCommission(rates, serviceType, amount, groupId, userId);
            r.Some? && r.value.ratePercentage == rates[i].ratePercentage && r.value.groupId == groupId
  {
    var g := FirstGroupMatch(rates, groupId, amount);
    assert g.Some?;
  }

  /** Without a matching group-specific rate, the first matching general rate is charged and
      the caller's group is echoed. */
  lemma GeneralFallback(rates: seq<CommissionRate>, serviceType: ServiceType, amount: real,
                        groupId: Option<string>, userId: Option<string>, i: nat)
    requires forall j :: 0 <= j < |rates| ==> !GroupMatch(rates[j], groupId, amount)
    requires i < |rates| && GeneralMatch(rates[i], amount)
    requires forall j :: 0 <= j < i ==> !GeneralMatch(rates[j], amount)
    ensures var r := CalculateCommission(rates, serviceType, amount, groupId, userId);
            r.Some? && r.value.ratePercentage == rates[i].ratePercentage && r.value.groupId == groupId
  {
    var h := FirstGeneralMatch(rates, amount);
    assert h.Some?;
  }

  /** Read against the table: the first listed row matching the caller's group and tier is charged. */
  lemma TableGroupRateWins(table: seq<CommissionRate>, serviceType: ServiceType, amount: real,
                           groupId: Option<string>, userId: Option<string>, i: nat)
    requires i < |table| && Listed(table[i], groupId, serviceType) && GroupMatch(table[i], groupId, amount)
    requires forall j :: 0 <= j < i && Listed(table[j], groupId, serviceType) ==> !GroupMatch(table[j], groupId, amount)
    ensures var r := CalculateCommission(ActiveRatesFor(table, groupId, serviceType), serviceType, amount, groupId, userId);
            r.Some? && r.value.ratePercentage == table[i].ratePercentage && r.value.groupId == groupId
  {
    var before := ActiveRatesFor(table[..i], groupId, serviceType);
    var rates := ActiveRatesFor(table, groupId, serviceType);
    ListedAround(table, groupId, serviceType, i);
    assert rates[|before|] == table[i];
    forall j | 0 <= j < |before| ensures !GroupMatch(rates[j], groupId, amount) {
      assert rates[j] == before[j] && before[j] in before;
      var k :| 0 <= k < i && table[..i][k] == before[j];
      assert table[k] == before[j];
    }
    GroupSpecificWins(rates, serviceType, amount, groupId, userId, |before|);
  }

  /** Read against the table: with no listed row matching the caller's group, the first listed
      general row in tier is charged. */
  lemma TableGeneralFallback(table: seq<CommissionRate>, serviceType: ServiceType, amount: real,
                             groupId: Option<string>, userId: Option<string>, i: nat)
    requires forall j :: 0 <= j < |table| && Listed(table[j], groupId, serviceType) ==> !GroupMatch(table[j], groupId, amount)
    requires i < |table| && Listed(table[i], groupId, serviceType) && GeneralMatch(table[i], amount)
    requires forall j :: 0 <= j < i && Listed(table[j], groupId, serviceType) ==> !GeneralMatch(table[j], amount)
    ensures var r := CalculateCommission(ActiveRatesFor(table, groupId, serviceType), serviceType, amount, groupId, userId);
            r.Some? && r.value.ratePercentage == table[i].ratePercentage && r.value.groupId == groupId
  {
    var before := ActiveRatesFor(table[..i], groupId, serviceType);
    var rates := ActiveRatesFor(table, groupId, serviceType);
    ListedAround(table, groupId, serviceType, i);
    assert rates[|before|] == table[i];
    forall j | 0 <= j < |rates| ensures !GroupMatch(rates[j], groupId, amount) {
      assert rates[j] in rates;
      var k :| 0 <= k < |table| && table[k] == rates[j];
    }
    forall j | 0 <= j < |before| ensures !GeneralMatch(rates[j], amount) {
      assert rates[j] == before[j] && before[j] in before;
      var k :| 0 <= k < i && table[..i][k] == before[j];
      assert table[k] == before[j];
    }
    GeneralFallback(rates, serviceType, amount, groupId, userId, |before|);
  }

  /** The rate charged is always one of the listed rates whose tier holds the amount. */
  lemma ChargedRateIsListed(table: seq<CommissionRate>, serviceType: ServiceType, amount: real,
                            groupId: Option<string>, userId: Option<string>)
    ensures var rates := ActiveRatesFor(table, groupId, serviceType);
            var r := CalculateCommission(rates, serviceType, amount, groupId, userId);
            r.Some? ==> exists x :: x in table && Listed(x, groupId, serviceType) && InTier(x, amount)
                                  && x.ratePercentage == r.value.ratePercentage
  {
    var rates := ActiveRatesFor(table, groupId, serviceType);
    var chosen := ChooseRate(rates, groupId, amount);
    if chosen.Some? {
      assert chosen.value in rates;
    }
  }

  // ---------------------------------------------------------------------------------------
  // Applying a commission

  /** The table `applyCommission` writes to, by transaction type. */
  function TableFor(t: TransactionType): string {
    match t
    case ContributionTxn => "contributions"
    case LoanTxn => "loans"
    case EscrowTxn => "escrow_transactions"
  }

  /** The three transaction types write to three different tables. */
  lemma TablesDistinct(t: TransactionType, u: TransactionType)
    ensures TableFor(t) == TableFor(u) <==> t == u
  {
  }

  /** Number of `group_members` rows of a user. */
  function RowsOf(members: seq<MemberCommission>, userId: string): (n: nat)
    ensures n <= |members|
  {
    if members == [] then 0
    else (if members[0].userId == userId then 1 else 0) + RowsOf(members[1..], userId)
  }

  /** The running total after crediting one user's rows: a missing total counts as 0. */
  function Credited(members: seq<MemberCommission>, userId: string, amount: real): (r: seq<MemberCommission>)
    ensures |r| == |members|
    ensures forall i :: 0 <= i < |members| ==>
      r[i] == if members[i].userId == userId
              then members[i].(commissionEarned := Some(members[i].commissionEarned.GetOr(0.0) + amount))
              else members[i]
  {
    seq(|members|, i requires 0 <= i < |members| =>
      if members[i].userId == userId
      then members[i].(commissionEarned := Some(members[i].commissionEarned.GetOr(0.0) + amount))
      else members[i])
  }

  function TotalEarned(members: seq<MemberCommission>): real {
    if members == [] then 0.0 else members[0].commissionEarned.GetOr(0.0) + TotalEarned(members[1..])
  }

  /** Crediting a user with exactly one row raises the sum of all running totals by the amount. */
  lemma {:induction false} CreditAddsAmount(members: seq<MemberCommission>, userId: string, amount: real)
    requires RowsOf(members, userId) == 1
    ensures TotalEarned(Credited(members, userId, amount)) == TotalEarned(members) + amount
  {
    var c := Credited(members, userId, amount);
    assert c[1..] == Credited(members[1..], userId, amount);
    if members[0].userId == userId {
      CreditNoneChanges(members[1..], userId, amount);
    } else {
      CreditAddsAmount(members[1..], userId, amount);
    }
  }

  lemma {:induction false} CreditNoneChanges(members: seq<MemberCommission>, userId: string, amount: real)
    requires RowsOf(members, userId) == 0
    ensures Credited(members, userId, amount) == members
  {
    if members != [] {
      CreditNoneChanges(members[1..], userId, amount);
      assert Credited(members, userId, amount)[1..] == Credited(members[1..], userId, amount);
    }
  }

  /** The `commission_rates` table. */
  class RateTable {
    /** Newest first. */
    var rates: seq<CommissionRate>

    constructor ()
      ensures rates == []
    {
      rates := [];
    }

    predicate HasId(id: string)
      reads this
    {
      exists i :: 0 <= i < |rates| && rates[i].id == id
    }

    /** `getCommissionRates(groupId, serviceType)`. */
    function ActiveRates(groupId: Option<string>, serviceType: ServiceType): seq<CommissionRate>
      reads this
    {
      ActiveRatesFor(rates, groupId, serviceType)
    }

    /** `createCommissionRate`: a new active rate; a duplicate id is rejected by the table. */
    method CreateCommissionRate(draft: RateDraft, createdBy: string, id: string) returns (res: Result<CommissionRate, string>)
      modifies this
      ensures old(HasId(id)) ==> res.Err? && rates == old(rates)
      ensures !old(HasId(id)) ==> res == Ok(NewRate(draft, id, createdBy)) && rates == [res.value] + old(rates)
    {
      if HasId(id) {
        res := Err("duplicate key value violates unique constraint");
      } else {
        var rate := NewRate(draft, id, createdBy);
        rates := [rate] + rates;
        res := Ok(rate);
      }
    }

    /** `deleteCommissionRate`: a soft delete that only clears `is_active`. */
    method DeleteCommissionRate(id: string)
      modifies this
      ensures rates == Deactivated(old(rates), id)
    {
      rates := Deactivated(rates, id);
    }

    /** `setDefaultCommissionRates` as written: the deactivation filters by `group_id=eq.null`,
        which matches no row (a null column is found only by `is.null`, as the rate query does),
        so no rate is switched off; the new rates are inserted active, created by "system", when
        their ids are fresh. IntendedDefaults is the table the comment describes. */
    method SetDefaultCommissionRates(drafts: seq<RateDraft>, ids: seq<string>) returns (res: Result<seq<CommissionRate>, string>)
      requires |ids| == |drafts|
      modifies this
      ensures res.Ok? <==> FreshIds(old(rates), ids)
      ensures res.Ok? ==> res.value == NewRates(drafts, ids, "system") && rates == res.value + old(rates)
      ensures res.Err? ==> rates == old(rates)
    {
      if FreshIds(rates, ids) {
        var added := NewRates(drafts, ids, "system");
        rates := added + rates;
        res := Ok(added);
      } else {
        res := Err("duplicate key value violates unique constraint");
      }
    }
  }

  function NewRate(draft: RateDraft, id: string, createdBy: string): CommissionRate {
    CommissionRate(id, draft.groupId, draft.serviceType, draft.minimumAmount, draft.maximumAmount,
                   draft.ratePercentage, true, createdBy)
  }

  function NewRates(drafts: seq<RateDraft>, ids: seq<string>, createdBy: string): (r: seq<CommissionRate>)
    requires |ids| == |drafts|
    ensures |r| == |drafts|
    ensures forall i :: 0 <= i < |r| ==> r[i] == NewRate(drafts[i], ids[i], createdBy)
  {
    seq(|drafts|, i requires 0 <= i < |drafts| => NewRate(drafts[i], ids[i], createdBy))
  }

  /** The batch's ids are pairwise distinct and unused by the table. */
  predicate FreshIds(rates: seq<CommissionRate>, ids: seq<string>) {
    (forall i, j :: 0 <= i < j < |ids| ==> ids[i] != ids[j])
    && (forall i, k :: 0 <= i < |ids| && 0 <= k < |rates| ==> ids[i] != rates[k].id)
  }

  function Deactivated(rates: seq<CommissionRate>, id: string): (r: seq<CommissionRate>)
    ensures |r| == |rates|
    ensures forall i :: 0 <= i < |rates| ==> r[i] == if rates[i].id == id then rates[i].(isActive := false) else rates[i]
  {
    seq(|rates|, i requires 0 <= i < |rates| => if rates[i].id == id then rates[i].(isActive := false) else rates[i])
  }

  function GeneralDeactivated(rates: seq<CommissionRate>): (r: seq<CommissionRate>)
    ensures |r| == |rates|
    ensures forall i :: 0 <= i < |rates| ==> r[i] == if rates[i].groupId.None? then rates[i].(isActive := false) else rates[i]
  {
    seq(|rates|, i requires 0 <= i < |rates| => if rates[i].groupId.None? then rates[i].(isActive := false) else rates[i])
  }

  /** A deleted rate is never offered again, for any group or service type. */
  lemma DeletedRateNeverListed(rates: seq<CommissionRate>, id: string, groupId: Option<string>, serviceType: ServiceType)
    ensures forall x :: x in ActiveRatesFor(Deactivated(rates, id), groupId, serviceType) ==> x.id != id
  {
    var d := Deactivated(rates, id);
    forall x | x in ActiveRatesFor(d, groupId, serviceType) ensures x.id != id {
      var i :| 0 <= i < |d| && d[i] == x;
    }
  }

  /** The table `setDefaultCommissionRates` is meant to leave: every general rate switched off,
      then the new rates in front. */
  function IntendedDefaults(old_rates: seq<CommissionRate>, drafts: seq<RateDraft>, ids: seq<string>): (r: seq<CommissionRate>)
    requires |ids| == |drafts|
    ensures |r| == |drafts| + |old_rates|
    ensures r[..|drafts|] == NewRates(drafts, ids, "system")
    ensures forall i :: 0 <= i < |old_rates| ==> r[|drafts| + i].id == old_rates[i].id
  {
    NewRates(drafts, ids, "system") + GeneralDeactivated(old_rates)
  }

  /** After the intended reset, every active general rate is one of the new defaults. */
  lemma DefaultsReplaceGeneralRates(old_rates: seq<CommissionRate>, drafts: seq<RateDraft>, ids: seq<string>)
    requires |ids| == |drafts|
    ensures forall x :: x in IntendedDefaults(old_rates, drafts, ids) && x.isActive && x.groupId.None?
                        ==> x in NewRates(drafts, ids, "system")
  {
    var added := NewRates(drafts, ids, "system");
    var rest := GeneralDeactivated(old_rates);
    assert IntendedDefaults(old_rates, drafts, ids) == added + rest;
    forall x | x in rest ensures !(x.isActive && x.groupId.None?) {
      var i :| 0 <= i < |rest| && rest[i] == x;
    }
  }

  /** The intended reset keeps every group-specific rate as it was. */
  lemma DefaultsKeepGroupRates(old_rates: seq<CommissionRate>, drafts: seq<RateDraft>, ids: seq<string>)
    requires |ids| == |drafts|
    ensures forall i :: 0 <= i < |old_rates| && old_rates[i].groupId.Some?
                        ==> IntendedDefaults(old_rates, drafts, ids)[|drafts| + i] == old_rates[i]
  {
    assert IntendedDefaults(old_rates, drafts, ids) == NewRates(drafts, ids, "system") + GeneralDeactivated(old_rates);
  }

  /** As written, every rate the query offered before the reset is still offered after it,
      behind the new ones. */
  lemma GeneralRatesSurviveDefaults(old_rates: seq<CommissionRate>, drafts: seq<RateDraft>, ids: seq<string>,
                                    groupId: Option<string>, serviceType: ServiceType)
    requires |ids| == |drafts|
    ensures var added := NewRates(drafts, ids, "system");
            ActiveRatesFor(added + old_rates, groupId, serviceType)
              == ActiveRatesFor(added, groupId, serviceType) + ActiveRatesFor(old_rates, groupId, serviceType)
  {
    ActiveRatesForConcat(NewRates(drafts, ids, "system"), old_rates, groupId, serviceType);
  }

  /** The two readings part on any active general rate whose id the batch does not reuse: it is
      still an active general rate of the table as written, and not of the intended one. */
  lemma OldDefaultKeptAsWritten(old_rates: seq<CommissionRate>, drafts: seq<RateDraft>, ids: seq<string>, k: nat)
    requires |ids| == |drafts| && k < |old_rates|
    requires old_rates[k].isActive && old_rates[k].groupId.None?
    requires forall i :: 0 <= i < |ids| ==> ids[i] != old_rates[k].id
    ensures var x := old_rates[k];
            x in NewRates(drafts, ids, "system") + old_rates && x.isActive && x.groupId.None?
            && x !in NewRates(drafts, ids, "system")
            && x !in IntendedDefaults(old_rates, drafts, ids)
  {
    var x := old_rates[k];
    var added := NewRates(drafts, ids, "system");
    assert (added + old_rates)[|added| + k] == x;
    DefaultsReplaceGeneralRates(old_rates, drafts, ids);
  }

  /** The commission column of `group_members`. */
  class MemberLedger {
    var members: seq<MemberCommission>

    constructor (rows: seq<MemberCommission>)
      ensures members == rows
    {
      members := rows;
    }

    /** `updateUserCommissionEarned`: the `.single()` read finds a row only when the user has
        exactly one; then that total grows by the amount (a missing total counts as 0). */
    method UpdateUserCommissionEarned(userId: string, amount: real)
      modifies this
      ensures RowsOf(old(members), userId) == 1 ==> members == Credited(old(members), userId, amount)
      ensures RowsOf(old(members), userId) != 1 ==> members == old(members)
    {
      if RowsOf(members, userId) == 1 {
        members := Credited(members, userId, amount);
      }
    }

    /** `applyCommission`: the write to the table chosen by the transaction type, then the
        member's running total when the calculation names a user. */
    method ApplyCommission(calculation: CommissionCalculation, txnId: string, txnType: TransactionType) returns (w: CommissionWrite)
      modifies this
      ensures w == CommissionWrite(TableFor(txnType), txnId, calculation.commissionAmount)
      ensures Filled(calculation.userId) && RowsOf(old(members), calculation.userId.value) == 1
              ==> members == Credited(old(members), calculation.userId.value, calculation.commissionAmount)
      ensures !Filled(calculation.userId) || RowsOf(old(members), calculation.userId.value) != 1 ==> members == old(members)
    {
      w := CommissionWrite(TableFor(txnType), txnId, calculation.commissionAmount);
      if Filled(calculation.userId) {
        UpdateUserCommissionEarned(calculation.userId.value, calculation.commissionAmount);
      }
    }
  }
}
