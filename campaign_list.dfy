/**
 * frontend/src/components/CampaignList.tsx: the list's state cells and
 * handlers, the action each status offers, the aggregates of the stats row
 * and the status badge. A request is issued by one step and its reply
 * applied by a later one, so the in-flight `processing` is visible.
 */
module CampaignListView {
  import opened Wrappers
  import opened UiTypes

  // ---------------------------------------------------------- actions

  /**
   * What a campaign's card shows: a Publish button, a Disable button, or the
   * "Disabled" tag. The table row shows the two buttons and nothing for PAUSED.
   */
  datatype Action = OfferPublish | OfferDisable | ShowDisabled

  function ActionFor(status: CampaignStatus): (a: Action)
    ensures a == OfferPublish <==> status == Draft
    ensures a == OfferDisable <==> status == Published
    ensures a == ShowDisabled <==> status == Paused
  {
    match status
    case Draft => OfferPublish
    case Published => OfferDisable
    case Paused => ShowDisabled
  }

  /** `disabled={processing === camp.id}` (and `isProcessing` on the card). */
  predicate ButtonDisabled(processing: Option<string>, id: string): (disabled: bool)
    ensures processing.None? ==> !disabled
    ensures processing.Some? ==> (disabled <==> processing.value == id)
  {
    processing == Some(id)
  }

  /** A button's text: `...` while its campaign is being processed. */
  function ButtonText(action: Action, processing: Option<string>, id: string): (t: string)
    requires action != ShowDisabled
    ensures t == "..." <==> ButtonDisabled(processing, id)
  {
    if processing == Some(id) then "..." else if action == OfferPublish then "Publish" else "Disable"
  }

  // ------------------------------------------------------- aggregates

  /** `campaigns.reduce((acc, c) => acc + (c.daily_budget || 0), 0)`. */
  function TotalSpend(cs: seq<Campaign>): (total: int)
    ensures (forall i :: 0 <= i < |cs| ==> cs[i].dailyBudget.GetOr(0) >= 0) ==> total >= 0
    ensures (forall i :: 0 <= i < |cs| ==> cs[i].dailyBudget.None?) ==> total == 0
  {
    if cs == [] then 0 else TotalSpend(cs[..|cs| - 1]) + cs[|cs| - 1].dailyBudget.GetOr(0)
  }

  lemma {:induction false} TotalSpendAppend(a: seq<Campaign>, b: seq<Campaign>)
    ensures TotalSpend(a + b) == TotalSpend(a) + TotalSpend(b)
  {
    if b == [] {
      assert a + b == a;
    } else {
      assert (a + b)[..|a + b| - 1] == a + b[..|b| - 1];
      TotalSpendAppend(a, b[..|b| - 1]);
    }
  }

  /** With budgets that are never negative, a missing one counting as 0, the total bounds every budget. */
  /** A single campaign's total is its budget, a missing one counting as 0. */
  lemma TotalSpendOne(c: Campaign)
    ensures TotalSpend([c]) == c.dailyBudget.GetOr(0)
  {
    assert [c][..0] == [];
  }

  lemma {:induction false} TotalSpendBounds(cs: seq<Campaign>)
    requires forall i :: 0 <= i < |cs| ==> cs[i].dailyBudget.GetOr(0) >= 0
    ensures forall i :: 0 <= i < |cs| ==> cs[i].dailyBudget.GetOr(0) <= TotalSpend(cs)
  {
    if cs != [] {
      var front := cs[..|cs| - 1];
      TotalSpendBounds(front);
      forall i | 0 <= i < |cs| ensures cs[i].dailyBudget.GetOr(0) <= TotalSpend(cs) {
        if i < |cs| - 1 { assert cs[i] == front[i]; }
      }
    }
  }

  /** The campaigns' statuses, in order. */
  function Statuses(cs: seq<Campaign>): (ss: seq<CampaignStatus>)
    ensures |ss| == |cs| && forall i :: 0 <= i < |cs| ==> ss[i] == cs[i].status
  {
    seq(|cs|, i requires 0 <= i < |cs| => cs[i].status)
  }

  /** `activeCount`: `campaigns.filter(c => c.status === 'PUBLISHED').length`. */
  function ActiveCount(cs: seq<Campaign>): (n: nat)
    ensures n <= |cs|
    ensures n == 0 <==> forall i :: 0 <= i < |cs| ==> cs[i].status != Published
  {
    Count(Statuses(cs), Published)
  }

  lemma {:induction false} CountPartition(ss: seq<CampaignStatus>)
    ensures Count(ss, Draft) + Count(ss, Published) + Count(ss, Paused) == |ss|
  {
    if ss != [] {
      CountPartition(ss[1..]);
      assert ss[0] == Draft || ss[0] == Published || ss[0] == Paused;
    }
  }

  /** Every campaign is in exactly one status, so the three counts add up to the total. */
  lemma StatusCountsPartition(cs: seq<Campaign>)
    ensures Count(Statuses(cs), Draft) + Count(Statuses(cs), Published) + Count(Statuses(cs), Paused) == |cs|
    ensures ActiveCount(cs) <= |cs|
  {
    CountPartition(Statuses(cs));
  }

  /** `activeCampaigns.map(c => c.roas)`: the roas values that are defined and positive. */
  function PositiveRoas(cs: seq<Campaign>): (r: seq<real>)
    ensures |r| <= |cs|
    ensures forall i :: 0 <= i < |r| ==> r[i] > 0.0
    ensures forall x :: x in r <==> exists i :: 0 <= i < |cs| && cs[i].roas == Some(x) && x > 0.0
  {
    if cs == [] then []
    else (if cs[0].roas.Some? && cs[0].roas.value > 0.0 then [cs[0].roas.value] else []) + PositiveRoas(cs[1..])
  }

  function Sum(xs: seq<real>): real
  {
    if xs == [] then 0.0 else xs[0] + Sum(xs[1..])
  }

  lemma {:induction false} SumOfPositives(xs: seq<real>)
    requires forall i :: 0 <= i < |xs| ==> xs[i] > 0.0
    ensures xs != [] ==> Sum(xs) > 0.0
    ensures xs == [] ==> Sum(xs) == 0.0
  {
    if xs != [] {
      SumOfPositives(xs[1..]);
    }
  }

  /**
   * `avgRoas` before `toFixed(2)`: no value (shown as `'0.00'`) when no
   * campaign has a positive roas, otherwise the mean of the positive ones.
   */
  function AverageRoas(cs: seq<Campaign>): (avg: Option<real>)
    ensures avg.None? <==> |PositiveRoas(cs)| == 0
    ensures avg.Some? ==> avg.value > 0.0
  {
    var rs := PositiveRoas(cs);
    if |rs| == 0 then None
    else
      var n := |rs| as real;
      var total := Sum(rs);
      SumOfPositives(rs);
      Mean(total, n);
      Some(total / n)
  }

  /** One campaign with a positive roas is enough for an average to be shown. */
  lemma SomePositiveRoasGivesAverage(cs: seq<Campaign>, i: int)
    requires 0 <= i < |cs| && cs[i].roas.Some? && cs[i].roas.value > 0.0
    ensures AverageRoas(cs).Some?
  {
    assert cs[i].roas.value in PositiveRoas(cs);
  }

  lemma Mean(total: real, n: real)
    requires n > 0.0
    ensures total > 0.0 ==> total / n > 0.0
  {
  }

  /** No campaign with a roas above zero means no average, whatever the other stats. */
  lemma {:induction false} NoPositiveRoasNoAverage(cs: seq<Campaign>)
    requires forall i :: 0 <= i < |cs| ==> cs[i].roas.None? || cs[i].roas.value <= 0.0
    ensures AverageRoas(cs).None?
  {
    if cs != [] {
      NoPositiveRoasNoAverage(cs[1..]);
      assert |PositiveRoas(cs)| == |PositiveRoas(cs[1..])|;
    }
  }

  // ------------------------------------------------------------ badge

  /** `StatusBadge`: the text is the status itself; PUBLISHED is green, PAUSED yellow, anything else slate. */
  function CampaignBadge(status: string): (b: Badge)
    ensures b.text == status
    ensures b.styleClass == "status-badge status-published" <==> status == "PUBLISHED"
    ensures status != "PUBLISHED" ==> b.styleClass == "status-badge status-draft"
    ensures b.dotColor == (if status == "PUBLISHED" then "bg-green-400" else if status == "PAUSED" then "bg-yellow-500" else "bg-slate-400")
  {
    if status == "PUBLISHED" then Badge("status-badge status-published", "bg-green-400", status)
    else if status == "PAUSED" then Badge("status-badge status-draft", "bg-yellow-500", status)
    else Badge("status-badge status-draft", "bg-slate-400", status)
  }

  // ------------------------------------------------------- controller

  class CampaignListController {
    var campaigns: seq<Campaign>
    var loading: bool
    var processing: Option<string>

    /** The first render: empty list, loading, nothing processing; `Mounted` then issues the first fetch. */
    constructor()
      ensures campaigns == [] && loading && processing == None
    {
      campaigns := [];
      loading := true;
      processing := None;
    }

    /** The mount effect, `fetchCampaigns()` up to its `await`: it asks for the campaigns and changes no state. */
    method Mounted() returns (call: ApiCall)
      ensures call == GetCampaigns
    {
      call := GetCampaigns;
    }

    /** `fetchCampaigns` settling: a reply replaces the list, a failure keeps it; loading ends either way. */
    method FetchSettled(reply: Option<seq<Campaign>>)
      modifies this`campaigns, this`loading
      ensures !loading
      ensures campaigns == if reply.Some? then reply.value else old(campaigns)
    {
      if reply.Some? {
        campaigns := reply.value;
      }
      loading := false;
    }

    /** `handlePublish(id)` up to its `await`: marks `id` as processing and sends the publish request. */
    method HandlePublish(id: string) returns (call: ApiCall)
      modifies this`processing
      ensures processing == Some(id) && call == PublishCampaign(id)
      ensures forall other :: ButtonDisabled(processing, other) <==> other == id
    {
      processing := Some(id);
      call := PublishCampaign(id);
    }

    /** `handleDisable(id)` up to its `await`: the Disable button uses the pause endpoint. */
    method HandleDisable(id: string) returns (call: ApiCall)
      modifies this`processing
      ensures processing == Some(id) && call == PauseCampaign(id)
      ensures forall other :: ButtonDisabled(processing, other) <==> other == id
    {
      processing := Some(id);
      call := PauseCampaign(id);
    }

    /**
     * The rest of `handlePublish` or `handleDisable` once the request
     * settles: success starts a refetch, failure leaves the list as it is,
     * and `processing` is cleared in both cases.
     */
    method ActionSettled(ok: bool) returns (refetch: Option<ApiCall>)
      modifies this`processing
      ensures processing == None && forall id :: !ButtonDisabled(processing, id)
      ensures refetch == if ok then Some(GetCampaigns) else None
    {
      refetch := if ok then Some(GetCampaigns) else None;
      processing := None;
    }
  }
}
