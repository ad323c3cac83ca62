/** The admin adverts table: approve and reject overwrite two fields of one row;
    the header shows the budget and spend totals and the number of active ads. */
module AdsManagement {
  import opened Common
  import opened Approval

  datatype Ad = Ad(
    id: string,
    caption: Option<string>,
    budget: Option<real>,
    spent: Option<real>,
    status: string,
    approvalStatus: string,
    createdAt: string,
    userId: string)

  const Active: string := "active"
  const Completed: string := "completed"

  /** `.update({ approval_status: approval, status: status }).eq('id', id)` */
  function WithDecision(ads: seq<Ad>, id: string, approval: string, status: string): seq<Ad>
  {
    seq(|ads|, i requires 0 <= i < |ads| =>
      if ads[i].id == id then ads[i].(approvalStatus := approval, status := status) else ads[i])
  }

  function Budgets(ads: seq<Ad>): (r: seq<real>)
    ensures |r| == |ads| && forall i :: 0 <= i < |ads| ==> r[i] == OrZero(ads[i].budget)
  {
    seq(|ads|, i requires 0 <= i < |ads| => OrZero(ads[i].budget))
  }

  function Spends(ads: seq<Ad>): (r: seq<real>)
    ensures |r| == |ads| && forall i :: 0 <= i < |ads| ==> r[i] == OrZero(ads[i].spent)
  {
    seq(|ads|, i requires 0 <= i < |ads| => OrZero(ads[i].spent))
  }

  /** `ads.reduce((sum, ad) => sum + Number(ad.budget || 0), 0)` */
  function TotalBudget(ads: seq<Ad>): real { Sum(Budgets(ads)) }

  /** `ads.reduce((sum, ad) => sum + Number(ad.spent || 0), 0)` */
  function TotalSpent(ads: seq<Ad>): real { Sum(Spends(ads)) }

  predicate IsActive(ad: Ad) { ad.status == Active }

  /** `ads.filter(ad => ad.status === 'active').length`, never more than the number of ads. */
  function ActiveAds(ads: seq<Ad>): (n: nat)
    ensures n <= |ads|
  {
    |Filter(IsActive, ads)|
  }

  /** A decision rewrites status fields only, so neither total moves. */
  lemma DecisionKeepsTotals(ads: seq<Ad>, id: string, approval: string, status: string)
    ensures TotalBudget(WithDecision(ads, id, approval, status)) == TotalBudget(ads)
    ensures TotalSpent(WithDecision(ads, id, approval, status)) == TotalSpent(ads)
  {
    var after := WithDecision(ads, id, approval, status);
    assert Budgets(after) == Budgets(ads);
    assert Spends(after) == Spends(ads);
  }

  /** After approval the ad is counted as active and the count does not drop. */
  lemma ApproveActivates(ads: seq<Ad>, id: string)
    ensures forall i :: 0 <= i < |ads| && ads[i].id == id ==>
              WithDecision(ads, id, Approved, Active)[i] in Filter(IsActive, WithDecision(ads, id, Approved, Active))
    ensures ActiveAds(ads) <= ActiveAds(WithDecision(ads, id, Approved, Active))
  {
    FilterGrows(IsActive, ads, WithDecision(ads, id, Approved, Active));
  }

  /** After rejection the ad is not counted as active and the count does not grow. */
  lemma RejectDeactivates(ads: seq<Ad>, id: string)
    ensures forall i :: 0 <= i < |ads| && ads[i].id == id ==>
              WithDecision(ads, id, Rejected, Rejected)[i] !in Filter(IsActive, WithDecision(ads, id, Rejected, Rejected))
    ensures ActiveAds(WithDecision(ads, id, Rejected, Rejected)) <= ActiveAds(ads)
  {
    FilterGrows(IsActive, WithDecision(ads, id, Rejected, Rejected), ads);
  }

  /** With no negative amounts the totals are non-negative and bound every single ad. */
  lemma TotalsBoundEachAd(ads: seq<Ad>, k: nat)
    requires forall i :: 0 <= i < |ads| ==> OrZero(ads[i].budget) >= 0.0 && OrZero(ads[i].spent) >= 0.0
    requires k < |ads|
    ensures 0.0 <= OrZero(ads[k].budget) <= TotalBudget(ads)
    ensures 0.0 <= OrZero(ads[k].spent) <= TotalSpent(ads)
  {
    SumBoundsTerm(Budgets(ads), k);
    SumBoundsTerm(Spends(ads), k);
  }

  /** The status badge: default when active, secondary when completed, destructive otherwise. */
  function StatusBadge(status: string): (v: BadgeVariant)
    ensures v == Default <==> status == Active
    ensures v == Secondary <==> status == Completed
    ensures v == Destructive <==> status != Active && status != Completed
  {
    if status == Active then Default
    else if status == Completed then Secondary
    else Destructive
  }

  /** The adverts table as the admin view sees it; a failed write changes nothing. */
  class AdvertsTable {
    var ads: seq<Ad>

    constructor (fetched: seq<Ad>)
      ensures ads == fetched
    {
      ads := fetched;
    }

    /** handleApprove: approval_status 'approved' and status 'active' on that ad. */
    method Approve(id: string, writeOk: bool)
      modifies this
      ensures ads == if writeOk then WithDecision(old(ads), id, Approved, Active) else old(ads)
      ensures forall i :: 0 <= i < |ads| && old(ads)[i].id != id ==> ads[i] == old(ads)[i]
      ensures TotalBudget(ads) == TotalBudget(old(ads)) && TotalSpent(ads) == TotalSpent(old(ads))
      ensures ActiveAds(old(ads)) <= ActiveAds(ads)
    {
      if writeOk {
        DecisionKeepsTotals(ads, id, Approved, Active);
        ApproveActivates(ads, id);
        ads := WithDecision(ads, id, Approved, Active);
      }
    }

    /** handleReject: both approval_status and status become 'rejected'. */
    method Reject(id: string, writeOk: bool)
      modifies this
      ensures ads == if writeOk then WithDecision(old(ads), id, Rejected, Rejected) else old(ads)
      ensures forall i :: 0 <= i < |ads| && old(ads)[i].id != id ==> ads[i] == old(ads)[i]
      ensures TotalBudget(ads) == TotalBudget(old(ads)) && TotalSpent(ads) == TotalSpent(old(ads))
      ensures ActiveAds(ads) <= ActiveAds(old(ads))
    {
      if writeOk {
        DecisionKeepsTotals(ads, id, Rejected, Rejected);
        RejectDeactivates(ads, id);
        ads := WithDecision(ads, id, Rejected, Rejected);
      }
    }
  }
}
