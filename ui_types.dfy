/**
 * The frontend's records (frontend/src/types.ts, and the AdGroup and
 * AdGroupFormData shapes AdGroupForm.tsx reads and writes), the API calls
 * the controllers issue (frontend/src/api.ts and the ad-group calls the
 * components import), and the shape of a status badge.
 */
module UiTypes {
  import opened Wrappers

  /** `xs.filter(x => x === value).length`, the status counts of both lists. */
  function Count<T(==)>(xs: seq<T>, value: T): (n: nat)
    ensures n <= |xs|
    ensures n == 0 <==> value !in xs
  {
    if xs == [] then 0 else Count(xs[1..], value) + (if xs[0] == value then 1 else 0)
  }

  /** `'DRAFT' | 'PUBLISHED' | 'PAUSED'`. */
  datatype CampaignStatus = Draft | Published | Paused {
    function Name(): string
    {
      match this
      case Draft => "DRAFT"
      case Published => "PUBLISHED"
      case Paused => "PAUSED"
    }
  }

  /**
   * `Campaign` as the list receives it. Optional members are `Option`;
   * `daily_budget` is also an `Option` because the aggregate guards it with
   * `|| 0`. Of the mocked performance stats only `roas` takes part in logic.
   */
  datatype Campaign = Campaign(
    id: string,
    name: string,
    objective: string,
    campaignType: string,
    dailyBudget: Option<int>,
    startDate: string,
    endDate: string,
    status: CampaignStatus,
    googleCampaignId: Option<string>,
    adGroupName: Option<string>,
    adHeadline: Option<string>,
    adDescription: Option<string>,
    assetUrl: Option<string>,
    createdAt: string,
    roas: Option<real>)

  /** An ad group as the list and the form use it; `status` is the API's string (`ENABLED`, `PAUSED`, `REMOVED`). */
  datatype AdGroup = AdGroup(
    id: string,
    name: string,
    status: string,
    targetAudience: Option<string>,
    keywords: Option<string>,
    cpcBid: Option<real>,
    cpmBid: Option<real>,
    adHeadline: Option<string>,
    adHeadline2: Option<string>,
    adHeadline3: Option<string>,
    adDescription: Option<string>,
    adDescription2: Option<string>,
    finalUrl: Option<string>,
    displayUrl: Option<string>)

  /** The form's state: every text field is a string, the two bids may be `undefined`. */
  datatype AdGroupFormData = AdGroupFormData(
    name: string,
    targetAudience: string,
    keywords: string,
    cpcBid: Option<real>,
    cpmBid: Option<real>,
    adHeadline: string,
    adHeadline2: string,
    adHeadline3: string,
    adDescription: string,
    adDescription2: string,
    finalUrl: string,
    displayUrl: string)

  /** A request a controller sends; its reply comes back as a success/failure input. */
  datatype ApiCall =
    | GetCampaigns
    | PublishCampaign(campaignId: string)
    | PauseCampaign(campaignId: string)
    | GetAdGroups(ofCampaign: string)
    | DeleteAdGroup(adGroupId: string)
    | PauseAdGroup(adGroupId: string)
    | EnableAdGroup(adGroupId: string)
    | CreateAdGroup(forCampaign: string, data: AdGroupFormData)
    | UpdateAdGroup(adGroupId: string, data: AdGroupFormData)

  /** A rendered status badge: its CSS classes, the colour of its dot and its text. */
  datatype Badge = Badge(styleClass: string, dotColor: string, text: string)
}
