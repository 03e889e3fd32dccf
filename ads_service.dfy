/**
 * GoogleAdsService (backend/google_ads_service.py). The client library is
 * outside the model: each `mutate_*` call is an input that either returns a
 * resource name or raises. What the model keeps is what the service itself
 * decides: the mock answers, the operations it builds and submits, their
 * fixed settings and defaults, the order of the calls and where a failure
 * stops them, and the id it extracts from the created campaign's resource name.
 */
module AdsService {
  import opened Wrappers
  import opened Strings
  import opened Models

  /** `client is None` (credentials missing: mock mode) or a client for `customer_id`. */
  datatype Mode = Mock | Live(customerId: string)

  /** One `mutate_*` call: `response.results[0].resource_name`, or an exception. */
  datatype MutateReply = Created(resourceName: string) | Failed(reason: string)

  /** What a service method does for its caller: return a value or raise. */
  datatype Outcome<T> = Returns(value: T) | Raises(reason: string)

  /** The two readings of `datetime.now()` a publish takes: for the campaign name (or the mock id) and for the budget name. */
  datatype PublishClock = PublishClock(nameTime: Timestamp, budgetTime: Timestamp)

  /** The replies of the four mutate calls a live publish makes, in call order. */
  datatype PublishReplies = PublishReplies(budget: MutateReply, campaign: MutateReply, adGroup: MutateReply, ad: MutateReply)

  /** The status enum values the service sets. */
  datatype ResourceStatus = Enabled | Paused

  /** `campaign_path(customer_id, campaign_id)`. */
  datatype CampaignRef = CampaignRef(customerId: string, campaignId: string)

  datatype BudgetCreate = BudgetCreate(name: string, amountMicros: int, deliveryMethod: string)

  datatype CampaignCreate = CampaignCreate(
    name: string, status: ResourceStatus, channelType: string, budget: string,
    targetGoogleSearch: bool, targetContentNetwork: bool,
    startDate: Option<string>, endDate: Option<string>)

  datatype AdGroupCreate = AdGroupCreate(
    name: Json, campaign: CampaignRef, status: ResourceStatus, adGroupType: string, cpcBidMicros: int)

  /** A responsive search ad; the texts are whatever the data held, `null` included. */
  datatype AdCreate = AdCreate(
    adGroup: string, status: ResourceStatus, headlines: seq<Json>, descriptions: seq<Json>, finalUrls: seq<Json>)

  datatype CampaignUpdate = CampaignUpdate(campaign: CampaignRef, status: ResourceStatus, updateMask: seq<string>)

  datatype Operation =
    | CreateBudget(budget: BudgetCreate)
    | CreateCampaign(campaign: CampaignCreate)
    | CreateAdGroup(adGroup: AdGroupCreate)
    | CreateAd(ad: AdCreate)
    | UpdateCampaign(update: CampaignUpdate)

  /** The operations submitted to the API, in order, and what the method then did. */
  datatype Trace<T> = Trace(submitted: seq<Operation>, outcome: Outcome<T>)

  const MockIdPrefix: string := "MOCK_CAMPAIGN_ID_"
  const DefaultAdGroupName: string := "Default Ad Group"
  const DefaultHeadline: string := "New Campaign Offer"
  const DefaultDescription: string := "Check out our latest offers."
  const DefaultFinalUrl: string := "http://www.example.com"
  const AdGroupCpcBidMicros: int := 1000000
  const MicrosPerUnit: int := 1000000

  /** `now.strftime('%Y%m%d%H%M%S')`. */
  function CompactStamp(t: Timestamp): (s: string)
    ensures |s| == 14 && AllDigits(s)
  {
    Pow10Values();
    PadDecimal(t.date.year, 4) + PadDecimal(t.date.month, 2) + PadDecimal(t.date.day, 2)
    + PadDecimal(t.hour, 2) + PadDecimal(t.minute, 2) + PadDecimal(t.second, 2)
  }

  /** `now.strftime('%Y-%m-%d %H:%M:%S')`. */
  function SpacedStamp(t: Timestamp): (s: string)
    ensures |s| == 19
  {
    Pow10Values();
    IsoDate(t.date) + " " + PadDecimal(t.hour, 2) + ":" + PadDecimal(t.minute, 2) + ":" + PadDecimal(t.second, 2)
  }

  /** The id a mock publish returns. */
  function MockCampaignId(now: Timestamp): (id: string)
    ensures |id| == 31 && id[..17] == MockIdPrefix && AllDigits(id[17..])
  {
    var id := MockIdPrefix + CompactStamp(now);
    assert id[17..] == CompactStamp(now);
    id
  }

  /** Python's `int(x)` for a float: the fractional part is dropped (rounding toward zero). */
  function Truncate(x: real): (n: int)
    ensures x >= 0.0 ==> 0.0 <= n as real <= x < n as real + 1.0
    ensures x < 0.0 ==> n as real - 1.0 < x <= n as real <= 0.0
  {
    if x >= 0.0 then x.Floor else -((-x).Floor)
  }

  /**
   * `int(amount) * 1000000`: standard currency units to micros. The result is
   * a whole number of units, the amount in micros rounded toward zero to one;
   * a whole amount converts exactly.
   */
  function CurrencyToMicros(amount: real): (micros: int)
    ensures micros % MicrosPerUnit == 0
    ensures amount >= 0.0 ==> 0 <= micros && micros as real <= amount * 1000000.0 < micros as real + 1000000.0
    ensures amount < 0.0 ==> micros as real - 1000000.0 < amount * 1000000.0 <= micros as real <= 0.0
    ensures amount == amount.Floor as real ==> micros == amount.Floor * MicrosPerUnit
  {
    Truncate(amount) * 1000000
  }

  /**
   * `if value: field = value.replace('-', '')`: a null or empty date leaves
   * the field unset, any other string loses all its dashes.
   */
  function DateField(value: Json): (r: Option<string>)
    requires value.JStr? || value.JNull?
    ensures r.None? <==> value == JNull || value == JStr("")
    ensures r.Some? ==> '-' !in r.value
  {
    if value.JStr? && value.s != "" then Some(DeleteAll(value.s, '-')) else None
  }

  /** An ISO date `YYYY-MM-DD` becomes the eight digits `YYYYMMDD`. */
  lemma DateFieldOfIsoDate(d: CalendarDate)
    ensures DateField(JStr(IsoDate(d))).Some?
    ensures var r := DateField(JStr(IsoDate(d))).value;
            |r| == 8 && r == IsoDate(d)[..4] + IsoDate(d)[5..7] + IsoDate(d)[8..]
  {
    Pow10Values();
    var y, m, dd := PadDecimal(d.year, 4), PadDecimal(d.month, 2), PadDecimal(d.day, 2);
    var s := IsoDate(d);
    assert s == y + ['-'] + m + ['-'] + dd;
    assert !IsDigit('-');
    assert '-' !in y && '-' !in m && '-' !in dd;
    DeleteSeparators(y, m, dd, '-');
    assert s[..4] == y && s[5..7] == m && s[8..] == dd;
  }

  /** `resource_name.split('/')[-1]`: the Google campaign id. */
  function GoogleCampaignId(resourceName: string): (id: string)
    ensures '/' !in id
  {
    LastSegment(resourceName, '/')
  }

  /** For a resource name `customers/{c}/campaigns/{id}`, the extracted id is `{id}`. */
  lemma GoogleCampaignIdOfResourceName(customer: string, id: string)
    requires '/' !in id
    ensures GoogleCampaignId("customers/" + customer + "/campaigns/" + id) == id
  {
    var prefix := "customers/" + customer + "/campaigns";
    assert "customers/" + customer + "/campaigns/" + id == prefix + ['/'] + id;
    LastSegmentAfterSeparator(prefix, '/', id);
  }

  /** `data.get(key, default)`: the default only when the key is absent; a present `None` is kept. */
  function DictGet(data: map<string, Json>, key: string, default: Json): (v: Json)
    ensures key in data ==> v == data[key]
    ensures key !in data ==> v == default
  {
    if key in data then data[key] else default
  }

  /** The budget operation `_create_budget(amount)` submits. */
  function NewBudget(amount: real, now: Timestamp): (b: BudgetCreate)
    ensures b.amountMicros == CurrencyToMicros(amount)
    ensures b.deliveryMethod == "STANDARD"
  {
    BudgetCreate("Budget " + CompactStamp(now), CurrencyToMicros(amount), "STANDARD")
  }

  /** The campaign operation of a live publish: always created PAUSED, on the SEARCH channel. */
  function NewCampaign(data: map<string, Json>, name: string, budgetResource: string, now: Timestamp): (c: CampaignCreate)
    requires "start_date" in data && (data["start_date"].JStr? || data["start_date"].JNull?)
    requires "end_date" in data && (data["end_date"].JStr? || data["end_date"].JNull?)
    ensures c.status == ResourceStatus.Paused && c.channelType == "SEARCH" && c.budget == budgetResource
    ensures c.targetGoogleSearch && c.targetContentNetwork
    ensures c.startDate == DateField(data["start_date"]) && c.endDate == DateField(data["end_date"])
  {
    CampaignCreate(
      name + " - " + SpacedStamp(now), ResourceStatus.Paused, "SEARCH", budgetResource, true, true,
      DateField(data["start_date"]), DateField(data["end_date"]))
  }

  /** `_create_ad_group(campaign_id, name)`: ENABLED, SEARCH_STANDARD, a fixed 1.00 CPC bid. */
  function NewAdGroup(customerId: string, googleId: string, name: Json): (g: AdGroupCreate)
    ensures g.status == Enabled && g.adGroupType == "SEARCH_STANDARD"
    ensures g.cpcBidMicros == AdGroupCpcBidMicros
    ensures g.campaign == CampaignRef(customerId, googleId) && g.name == name
  {
    AdGroupCreate(name, CampaignRef(customerId, googleId), Enabled, "SEARCH_STANDARD", 1000000)
  }

  /**
   * `_create_ad(ad_group_resource_name, data)`: a PAUSED ad with three
   * headlines and two descriptions, of which only the first of each comes
   * from the data, and one final URL.
   */
  function NewAd(adGroupResource: string, data: map<string, Json>): (a: AdCreate)
    ensures a.adGroup == adGroupResource && a.status == ResourceStatus.Paused
    ensures |a.headlines| == 3 && |a.descriptions| == 2 && |a.finalUrls| == 1
    ensures a.headlines[0] == DictGet(data, "ad_headline", JStr(DefaultHeadline))
    ensures a.headlines[1..] == [JStr("Shop Now"), JStr("Best Deals")]
    ensures a.descriptions[0] == DictGet(data, "ad_description", JStr(DefaultDescription))
    ensures a.descriptions[1] == JStr("Limited time only.")
    ensures a.finalUrls[0] == DictGet(data, "asset_url", JStr(DefaultFinalUrl))
  {
    AdCreate(
      adGroupResource, ResourceStatus.Paused,
      [DictGet(data, "ad_headline", JStr("New Campaign Offer")), JStr("Shop Now"), JStr("Best Deals")],
      [DictGet(data, "ad_description", JStr("Check out our latest offers.")), JStr("Limited time only.")],
      [DictGet(data, "asset_url", JStr("http://www.example.com"))])
  }

  /**
   * What the publish reads from `campaign_data` without failing: a string
   * `name` and a whole `daily_budget`, and dates that are strings or null.
   * Both hold of every `to_dict()` result (see `PublishableCampaignDict`).
   */
  predicate Publishable(data: map<string, Json>)
  {
    && "name" in data && data["name"].JStr?
    && "daily_budget" in data && data["daily_budget"].JInt?
    && "start_date" in data && (data["start_date"].JStr? || data["start_date"].JNull?)
    && "end_date" in data && (data["end_date"].JStr? || data["end_date"].JNull?)
  }

  lemma PublishableCampaignDict(c: Campaign)
    ensures Publishable(ToDict(c))
    ensures ToDict(c)["daily_budget"] == JInt(c.dailyBudget)
  {
    ToDictRequiredNeverNull(c);
    ToDictDates(c);
  }

  /**
   * `publish_campaign(campaign_data)`: in mock mode no API call and a
   * timestamped mock id; in live mode the budget, campaign, ad group and ad
   * are created in that order, the first failing call ends the publish with
   * its exception, and success returns the id at the end of the campaign's
   * resource name.
   */
  function PublishCampaign(mode: Mode, data: map<string, Json>, clock: PublishClock, replies: PublishReplies): (t: Trace<string>)
    requires Publishable(data)
    ensures |t.submitted| <= 4
    ensures t.outcome.Raises? ==> mode.Live? && t.submitted != []
    ensures mode.Live? && t.outcome.Returns? ==> |t.submitted| == 4
  {
    if mode.Mock? then Trace([], Returns(MockCampaignId(clock.nameTime)))
    else
      var budget := CreateBudget(NewBudget(data["daily_budget"].i as real, clock.budgetTime));
      match replies.budget
      case Failed(r) => Trace([budget], Raises(r))
      case Created(budgetResource) =>
        var campaign := CreateCampaign(NewCampaign(data, data["name"].s, budgetResource, clock.nameTime));
        match replies.campaign
        case Failed(r) => Trace([budget, campaign], Raises(r))
        case Created(campaignResource) =>
          var googleId := GoogleCampaignId(campaignResource);
          var adGroup := CreateAdGroup(NewAdGroup(mode.customerId, googleId, DictGet(data, "ad_group_name", JStr("Default Ad Group"))));
          match replies.adGroup
          case Failed(r) => Trace([budget, campaign, adGroup], Raises(r))
          case Created(adGroupResource) =>
            var ad := CreateAd(NewAd(adGroupResource, data));
            match replies.ad
            case Failed(r) => Trace([budget, campaign, adGroup, ad], Raises(r))
            case Created(_) => Trace([budget, campaign, adGroup, ad], Returns(googleId))
  }

  /** Mock mode makes no API call and always succeeds with `MOCK_CAMPAIGN_ID_<YYYYMMDDHHMMSS>`. */
  lemma PublishInMockMode(data: map<string, Json>, clock: PublishClock, replies: PublishReplies)
    requires Publishable(data)
    ensures PublishCampaign(Mock, data, clock, replies).submitted == []
    ensures PublishCampaign(Mock, data, clock, replies).outcome == Returns(MockCampaignId(clock.nameTime))
  {
  }

  predicate AllCreated(r: PublishReplies)
  {
    r.budget.Created? && r.campaign.Created? && r.adGroup.Created? && r.ad.Created?
  }

  /**
   * A live publish succeeds exactly when all four calls succeed; it then
   * returns the id from the campaign's resource name, and the operations
   * carry the budget in micros, a PAUSED campaign on the new budget, an
   * ENABLED ad group with the fixed bid on the new campaign, and a PAUSED ad
   * in the new ad group.
   */
  lemma PublishInLiveMode(customer: string, data: map<string, Json>, clock: PublishClock, replies: PublishReplies)
    requires Publishable(data)
    ensures var t := PublishCampaign(Live(customer), data, clock, replies);
            t.outcome.Returns? <==> AllCreated(replies)
    ensures var t := PublishCampaign(Live(customer), data, clock, replies);
            AllCreated(replies) ==>
              t.outcome == Returns(GoogleCampaignId(replies.campaign.resourceName)) && |t.submitted| == 4
  {
  }

  /**
   * The four operations of a successful live publish, in order: a budget of
   * `daily_budget` in micros, a paused campaign on that budget, an enabled ad
   * group on the new campaign with the fixed CPC bid, and a paused ad in it.
   */
  lemma PublishInLiveModeSubmits(customer: string, data: map<string, Json>, clock: PublishClock, replies: PublishReplies)
    requires Publishable(data) && AllCreated(replies)
    ensures var t := PublishCampaign(Live(customer), data, clock, replies);
              && |t.submitted| == 4
              && t.submitted[0].CreateBudget? && t.submitted[0].budget.amountMicros == data["daily_budget"].i * MicrosPerUnit
              && t.submitted[1].CreateCampaign? && t.submitted[1].campaign.status == ResourceStatus.Paused
              && t.submitted[1].campaign.budget == replies.budget.resourceName
              && t.submitted[2].CreateAdGroup? && t.submitted[2].adGroup.status == Enabled
              && t.submitted[2].adGroup.cpcBidMicros == AdGroupCpcBidMicros
              && t.submitted[2].adGroup.campaign == CampaignRef(customer, GoogleCampaignId(replies.campaign.resourceName))
              && t.submitted[3].CreateAd? && t.submitted[3].ad.status == ResourceStatus.Paused
              && t.submitted[3].ad.adGroup == replies.adGroup.resourceName
  {
    assert (data["daily_budget"].i as real).Floor == data["daily_budget"].i;
  }

  /** The first failing call ends a live publish: nothing after it is submitted and its exception propagates. */
  lemma PublishStopsAtFirstFailure(customer: string, data: map<string, Json>, clock: PublishClock, replies: PublishReplies)
    requires Publishable(data)
    ensures replies.budget.Failed? ==>
      var t := PublishCampaign(Live(customer), data, clock, replies);
      |t.submitted| == 1 && t.outcome == Raises(replies.budget.reason)
    ensures replies.budget.Created? && replies.campaign.Failed? ==>
      var t := PublishCampaign(Live(customer), data, clock, replies);
      |t.submitted| == 2 && t.outcome == Raises(replies.campaign.reason)
    ensures replies.budget.Created? && replies.campaign.Created? && replies.adGroup.Failed? ==>
      var t := PublishCampaign(Live(customer), data, clock, replies);
      |t.submitted| == 3 && t.outcome == Raises(replies.adGroup.reason)
    ensures replies.budget.Created? && replies.campaign.Created? && replies.adGroup.Created? && replies.ad.Failed? ==>
      var t := PublishCampaign(Live(customer), data, clock, replies);
      |t.submitted| == 4 && t.outcome == Raises(replies.ad.reason)
  {
  }

  /**
   * A successful live publish sends the data's ad group name, first
   * headline, first description and final URL, each taken with `data.get`,
   * and the data's dates through `DateField`.
   */
  lemma PublishSendsData(customer: string, data: map<string, Json>, clock: PublishClock, replies: PublishReplies)
    requires Publishable(data) && AllCreated(replies)
    ensures var t := PublishCampaign(Live(customer), data, clock, replies);
            && |t.submitted| == 4 && t.submitted[1].CreateCampaign? && t.submitted[2].CreateAdGroup? && t.submitted[3].CreateAd?
            && t.submitted[2].adGroup.name == DictGet(data, "ad_group_name", JStr(DefaultAdGroupName))
            && t.submitted[3].ad.headlines[0] == DictGet(data, "ad_headline", JStr(DefaultHeadline))
            && t.submitted[3].ad.descriptions[0] == DictGet(data, "ad_description", JStr(DefaultDescription))
            && t.submitted[3].ad.finalUrls[0] == DictGet(data, "asset_url", JStr(DefaultFinalUrl))
            && t.submitted[1].campaign.startDate == DateField(data["start_date"])
            && t.submitted[1].campaign.endDate == DateField(data["end_date"])
  {
  }

  /**
   * On `to_dict()` output, which always has the keys, the defaults of
   * `data.get` never apply: an unset ad group name, headline, description or
   * asset URL is sent as null, not as the default text; and the dates are
   * sent as `YYYYMMDD`.
   */
  lemma PublishOfCampaignDict(customer: string, c: Campaign, clock: PublishClock, replies: PublishReplies)
    requires AllCreated(replies)
    ensures Publishable(ToDict(c))
    ensures var t := PublishCampaign(Live(customer), ToDict(c), clock, replies);
            && t.submitted[2].adGroup.name == StrOrNull(c.adGroupName)
            && t.submitted[3].ad.headlines[0] == StrOrNull(c.adHeadline)
            && t.submitted[3].ad.descriptions[0] == StrOrNull(c.adDescription)
            && t.submitted[3].ad.finalUrls[0] == StrOrNull(c.assetUrl)
            && t.submitted[1].campaign.startDate == DateField(JStr(IsoDate(c.startDate)))
            && t.submitted[1].campaign.endDate == DateField(JStr(IsoDate(c.endDate)))
  {
    var data := ToDict(c);
    PublishableCampaignDict(c);
    ToDictAdTexts(c);
    ToDictDateStrings(c);
    PublishSendsData(customer, data, clock, replies);
  }

  /**
   * `pause_campaign(google_campaign_id)` as written: mock mode returns True;
   * in live mode the field-mask line names `protobuf`, which the module
   * never imports, so the call always raises NameError.
   */
  function PauseAsWritten(mode: Mode, googleId: string): (o: Outcome<bool>)
    ensures o.Returns? <==> mode.Mock?
    ensures o.Returns? ==> o.value
  {
    if mode.Mock? then Returns(true) else Raises("name 'protobuf' is not defined")
  }

  lemma PauseAsWrittenNeverSucceedsLive(customer: string, googleId: string)
    ensures PauseAsWritten(Live(customer), googleId).Raises?
    ensures PauseAsWritten(Mock, googleId) == Returns(true)
  {
  }

  /**
   * `pause_campaign` as evidently intended: one campaign update that sets
   * status PAUSED with the field mask `["status"]`; True when the mutate
   * call succeeds, its exception otherwise. Mock mode makes no call.
   */
  function PauseCampaign(mode: Mode, googleId: string, reply: MutateReply): (t: Trace<bool>)
    ensures mode.Mock? ==> t == Trace([], Returns(true))
    ensures mode.Live? ==> t.submitted == [UpdateCampaign(CampaignUpdate(CampaignRef(mode.customerId, googleId), ResourceStatus.Paused, ["status"]))]
    ensures mode.Live? ==> (t.outcome == Returns(true) <==> reply.Created?)
    ensures mode.Live? && reply.Failed? ==> t.outcome == Raises(reply.reason)
  {
    if mode.Mock? then Trace([], Returns(true))
    else
      var op := UpdateCampaign(CampaignUpdate(CampaignRef(mode.customerId, googleId), ResourceStatus.Paused, ["status"]));
      match reply
      case Created(_) => Trace([op], Returns(true))
      case Failed(r) => Trace([op], Raises(r))
  }
}
