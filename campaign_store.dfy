/**
 * The Flask handlers of backend/app.py as operations on the `campaigns`
 * table, held as a map from id to row. The ads service is `AdsService`;
 * its API replies, the clock and the freshly drawn UUID are inputs.
 */
module CampaignApi {
  import opened Wrappers
  import opened Models
  import opened AdsService

  /** An HTTP reply: status code and JSON body. */
  datatype Response = Response(status: int, body: Json)

  /** `jsonify({key: text}), status`: a body that is an object with the one key. */
  function KeyedResponse(status: int, key: string, text: string): (r: Response)
    ensures r.status == status && r.body.JObject? && r.body.fields.Keys == {key}
    ensures r.body.fields[key] == JStr(text)
  {
    Response(status, JObject(map[key := JStr(text)]))
  }

  /** `jsonify({'error': message}), status`, the failure reply of every handler. */
  function ErrorResponse(status: int, message: string): Response
  {
    KeyedResponse(status, "error", message)
  }

  // ------------------------------------------------------------ the request

  /** One key of the JSON body: missing, `null`, or a value of the column's type. */
  datatype Entry<T> = Absent | Null | Present(value: T) {
    /** `data.get(key)`: `None` for a missing key and for `null`. */
    function Get(): Option<T>
    {
      match this
      case Present(v) => Some(v)
      case _ => None
    }
  }

  /** The keys of the POST body that `create_campaign` reads; any other key is ignored. */
  datatype CampaignRequest = CampaignRequest(
    name: Entry<string>,
    objective: Entry<string>,
    campaignType: Entry<string>,
    dailyBudget: Entry<int>,
    targetCpa: Entry<real>,
    biddingStrategy: Entry<string>,
    startDate: Entry<string>,
    endDate: Entry<string>,
    adGroupName: Entry<string>,
    adHeadline: Entry<string>,
    adDescription: Entry<string>,
    assetUrl: Entry<string>)

  const RequiredFields: seq<string> := ["name", "objective", "daily_budget", "start_date", "end_date"]

  /** `field in data` for the five required fields (true for any other name). */
  predicate Provided(req: CampaignRequest, field: string)
  {
    match field
    case "name" => !req.name.Absent?
    case "objective" => !req.objective.Absent?
    case "daily_budget" => !req.dailyBudget.Absent?
    case "start_date" => !req.startDate.Absent?
    case "end_date" => !req.endDate.Absent?
    case _ => true
  }

  /** The first of `fields` the body lacks. */
  function FirstMissing(req: CampaignRequest, fields: seq<string>): (r: Option<string>)
    ensures r.Some? ==> r.value in fields && !Provided(req, r.value)
  {
    if fields == [] then None
    else if !Provided(req, fields[0]) then Some(fields[0])
    else FirstMissing(req, fields[1..])
  }

  /** `FirstMissing` names a field exactly when it is lacking and every field before it is there. */
  lemma {:induction false} FirstMissingIsFirst(req: CampaignRequest, fields: seq<string>)
    ensures FirstMissing(req, fields).None? <==> forall i :: 0 <= i < |fields| ==> Provided(req, fields[i])
    ensures FirstMissing(req, fields).Some? ==>
      exists i :: 0 <= i < |fields| && fields[i] == FirstMissing(req, fields).value
        && !Provided(req, fields[i]) && forall j :: 0 <= j < i ==> Provided(req, fields[j])
  {
    if fields != [] && Provided(req, fields[0]) {
      FirstMissingIsFirst(req, fields[1..]);
      assert forall i :: 1 <= i < |fields| ==> fields[i] == fields[1..][i - 1];
      if FirstMissing(req, fields[1..]).Some? {
        var i :| 0 <= i < |fields[1..]| && fields[1..][i] == FirstMissing(req, fields[1..]).value
          && !Provided(req, fields[1..][i]) && forall j :: 0 <= j < i ==> Provided(req, fields[1..][j]);
        assert fields[i + 1] == FirstMissing(req, fields).value;
        assert forall j :: 0 <= j < i + 1 ==> Provided(req, fields[j]) by {
          forall j | 0 <= j < i + 1 ensures Provided(req, fields[j]) {
            if j > 0 { assert fields[j] == fields[1..][j - 1]; }
          }
        }
      }
    }
  }

  /** The field at `i` is reported when it is lacking and every field before it is there. */
  lemma {:induction false} FirstMissingAt(req: CampaignRequest, fields: seq<string>, i: int)
    requires 0 <= i < |fields| && !Provided(req, fields[i])
    requires forall j :: 0 <= j < i ==> Provided(req, fields[j])
    ensures FirstMissing(req, fields) == Some(fields[i])
  {
    if i > 0 {
      assert Provided(req, fields[0]);
      assert fields[1..][i - 1] == fields[i];
      assert forall j :: 0 <= j < i - 1 ==> fields[1..][j] == fields[j + 1];
      FirstMissingAt(req, fields[1..], i - 1);
    }
  }

  /** Once no required key is missing, both dates are there to parse. */
  lemma NoneMissingGivesDates(req: CampaignRequest)
    requires FirstMissing(req, RequiredFields).None?
    ensures !req.startDate.Absent? && !req.endDate.Absent?
    ensures !req.name.Absent? && !req.objective.Absent? && !req.dailyBudget.Absent?
  {
    FirstMissingIsFirst(req, RequiredFields);
    assert Provided(req, RequiredFields[0]) && Provided(req, RequiredFields[1]) && Provided(req, RequiredFields[2]);
    assert Provided(req, RequiredFields[3]) && Provided(req, RequiredFields[4]);
  }

  /** The outcome of the two `strptime` calls. */
  datatype DateCheck = Dates(start: CalendarDate, end: CalendarDate) | BadFormat | NotAString

  /**
   * `start_date` is parsed before `end_date`. A string that does not match
   * `%Y-%m-%d` raises ValueError (a 400); `null` raises TypeError, which the
   * inner `except ValueError` does not catch.
   */
  function CheckDates(req: CampaignRequest): (r: DateCheck)
    requires !req.startDate.Absent? && !req.endDate.Absent?
    ensures r.Dates? <==>
      (&& req.startDate.Present? && req.endDate.Present?
       && ParseDate(req.startDate.value).Some? && ParseDate(req.endDate.value).Some?)
    ensures r.Dates? ==> ParseDate(req.startDate.value) == Some(r.start) && ParseDate(req.endDate.value) == Some(r.end)
    ensures r.NotAString? <==>
      (|| req.startDate.Null?
       || (req.startDate.Present? && ParseDate(req.startDate.value).Some? && req.endDate.Null?))
  {
    match req.startDate
    case Null => NotAString
    case Present(s) =>
      match ParseDate(s)
      case None => BadFormat
      case Some(start) =>
        match req.endDate
        case Null => NotAString
        case Present(e) =>
          match ParseDate(e)
          case None => BadFormat
          case Some(end) => Dates(start, end)
  }

  /** What the five required keys must hold for the INSERT to satisfy the NOT NULL columns. */
  predicate NotNullSatisfied(req: CampaignRequest)
  {
    req.name.Present? && req.objective.Present? && req.dailyBudget.Present?
  }

  /**
   * The object `Campaign(...)` builds before the INSERT: status DRAFT, no
   * Google id, the body's values, and the column defaults where a defaulted
   * value is missing or null. What the table keeps of it is `StoredRow`.
   */
  function NewRow(req: CampaignRequest, start: CalendarDate, end: CalendarDate, id: Uuid, now: Timestamp): (c: Campaign)
    requires NotNullSatisfied(req)
    ensures c.status == Draft && c.googleCampaignId == None && c.id == id && c.createdAt == now
    ensures c.name == req.name.value && c.objective == req.objective.value && c.dailyBudget == req.dailyBudget.value
    ensures c.startDate == start && c.endDate == end
    ensures c.campaignType == if req.campaignType.Present? then req.campaignType.value else DefaultCampaignType
    ensures c.biddingStrategy == if req.biddingStrategy.Present? then req.biddingStrategy.value else DefaultBiddingStrategy
    ensures c.targetCpa == req.targetCpa.Get()
    ensures c.adGroupName == req.adGroupName.Get() && c.adHeadline == req.adHeadline.Get()
    ensures c.adDescription == req.adDescription.Get() && c.assetUrl == req.assetUrl.Get()
  {
    Campaign(
      id, req.name.value, req.objective.value,
      ColumnValue(req.campaignType.Get(), DefaultCampaignType),
      req.dailyBudget.value, req.targetCpa.Get(),
      ColumnValue(req.biddingStrategy.Get(), DefaultBiddingStrategy),
      start, end, Draft, None,
      req.adGroupName.Get(), req.adHeadline.Get(), req.adDescription.Get(), req.assetUrl.Get(),
      now)
  }

  /**
   * A body whose values all fit their columns is stored as built; a name of
   * 256 characters not ending in spaces, or a budget of 2^31, makes the
   * commit raise.
   */
  lemma NewRowStored(req: CampaignRequest, start: CalendarDate, end: CalendarDate, id: Uuid, now: Timestamp)
    requires NotNullSatisfied(req)
    ensures var c := NewRow(req, start, end, id, now);
      && (WithinColumns(c) ==> StoredRow(c) == Some(c))
      && (|req.name.value| == NameWidth + 1 && req.name.value[NameWidth] != ' ' ==> StoredRow(c).None?)
      && (req.dailyBudget.value == 0x8000_0000 ==> StoredRow(c).None?)
  {
    OverlongValuesRefused(NewRow(req, start, end, id, now));
  }

  /**
   * Only the presence of the five keys and the date format are checked: a
   * body with an empty name, no objective text and an end date before its
   * start date passes both checks.
   */
  lemma EmptyNameAndReversedDatesPass(start: CalendarDate, end: CalendarDate, budget: int)
    requires Ticks(DateTime(end, 0, 0, 0, 0)) < Ticks(DateTime(start, 0, 0, 0, 0))
    ensures var req := CampaignRequest(Present(""), Present(""), Absent, Present(budget), Absent, Absent,
              Present(IsoDate(start)), Present(IsoDate(end)), Absent, Absent, Absent, Absent);
      FirstMissing(req, RequiredFields).None? && CheckDates(req) == Dates(start, end) && NotNullSatisfied(req)
  {
    var req := CampaignRequest(Present(""), Present(""), Absent, Present(budget), Absent, Absent,
      Present(IsoDate(start)), Present(IsoDate(end)), Absent, Absent, Absent, Absent);
    FirstMissingIsFirst(req, RequiredFields);
    assert forall i :: 0 <= i < |RequiredFields| ==> Provided(req, RequiredFields[i]) by {
      forall i | 0 <= i < |RequiredFields| ensures Provided(req, RequiredFields[i]) {
        assert RequiredFields[i] in {"name", "objective", "daily_budget", "start_date", "end_date"};
      }
    }
    IsoDateRoundTrip(start);
    IsoDateRoundTrip(end);
  }

  // ---------------------------------------------------------------- lookups

  /** The text of werkzeug's NotFound, `str(e)` of the exception `get_or_404` raises. */
  const NotFoundText: string :=
    "404 Not Found: The requested URL was not found on the server. If you entered the URL manually please check your spelling and try again."

  datatype Lookup = Found(row: Campaign) | Stop(response: Response)

  /**
   * `Campaign.query.get_or_404(id)` as written inside `try ... except
   * Exception`: the NotFound it raises for an unknown id is caught by the
   * handler's own `except` and answered as a 500 carrying the 404's text.
   */
  function LookupAsWritten(rows: map<Uuid, Campaign>, id: Uuid): (r: Lookup)
    ensures id in rows <==> r.Found?
    ensures r.Found? ==> r.row == rows[id]
    ensures r.Stop? ==> r.response == ErrorResponse(500, NotFoundText)
  {
    if id in rows then Found(rows[id]) else Stop(ErrorResponse(500, NotFoundText))
  }

  /** `get_or_404` as intended: an unknown id is answered 404 (Flask's page for NotFound). */
  function LookupRow(rows: map<Uuid, Campaign>, id: Uuid): (r: Lookup)
    ensures id in rows <==> r.Found?
    ensures r.Found? ==> r.row == rows[id]
    ensures r.Stop? ==> r.response.status == 404
  {
    if id in rows then Found(rows[id]) else Stop(Response(404, JStr(NotFoundText)))
  }

  /** The two agree on known ids; on an unknown id the written handler answers 500 instead of 404. */
  lemma LookupAsWrittenAnswers500(rows: map<Uuid, Campaign>, id: Uuid)
    ensures id in rows ==> LookupAsWritten(rows, id) == LookupRow(rows, id)
    ensures id !in rows ==> LookupAsWritten(rows, id).Stop? && LookupAsWritten(rows, id).response.status == 500
    ensures id !in rows ==> LookupRow(rows, id).Stop? && LookupRow(rows, id).response.status == 404
  {
  }

  // ---------------------------------------------------------------- listing

  predicate SortedNewestFirst(s: seq<Campaign>)
  {
    forall i, j :: 0 <= i < j < |s| ==> Ticks(s[j].createdAt) <= Ticks(s[i].createdAt)
  }

  /** Inserts `c` after every row at least as new as it. */
  function InsertNewestFirst(s: seq<Campaign>, c: Campaign): (r: seq<Campaign>)
    ensures |r| == |s| + 1 && c in r
    ensures forall i :: 0 <= i < |r| ==> r[i] == c || r[i] in s
  {
    if s == [] || Ticks(s[0].createdAt) < Ticks(c.createdAt) then [c] + s
    else [s[0]] + InsertNewestFirst(s[1..], c)
  }

  lemma {:induction false} InsertNewestFirstPermutes(s: seq<Campaign>, c: Campaign)
    ensures multiset(InsertNewestFirst(s, c)) == multiset(s) + multiset{c}
  {
    if s != [] && Ticks(s[0].createdAt) >= Ticks(c.createdAt) {
      InsertNewestFirstPermutes(s[1..], c);
      assert s == [s[0]] + s[1..];
    }
  }

  predicate NoNewerThan(s: seq<Campaign>, top: int)
  {
    forall i :: 0 <= i < |s| ==> Ticks(s[i].createdAt) <= top
  }

  lemma {:induction false} InsertNewestFirstNoNewer(s: seq<Campaign>, c: Campaign, top: int)
    requires NoNewerThan(s, top) && Ticks(c.createdAt) <= top
    ensures NoNewerThan(InsertNewestFirst(s, c), top)
  {
    if s != [] && Ticks(s[0].createdAt) >= Ticks(c.createdAt) {
      InsertNewestFirstNoNewer(s[1..], c, top);
    }
  }

  lemma {:induction false} InsertNewestFirstKeepsOrder(s: seq<Campaign>, c: Campaign)
    requires SortedNewestFirst(s)
    ensures SortedNewestFirst(InsertNewestFirst(s, c))
  {
    if s == [] || Ticks(s[0].createdAt) < Ticks(c.createdAt) {
      assert NoNewerThan(s, Ticks(c.createdAt));
      ConsSorted(c, s);
    } else {
      var tail := s[1..];
      var top := Ticks(s[0].createdAt);
      UnconsSorted(s);
      InsertNewestFirstKeepsOrder(tail, c);
      InsertNewestFirstNoNewer(tail, c, top);
      ConsSorted(s[0], InsertNewestFirst(tail, c));
    }
  }

  /** A row at least as new as every row of a sorted list keeps it sorted in front of it. */
  lemma ConsSorted(h: Campaign, s: seq<Campaign>)
    requires SortedNewestFirst(s) && NoNewerThan(s, Ticks(h.createdAt))
    ensures SortedNewestFirst([h] + s)
  {
    var r := [h] + s;
    forall i, j | 0 <= i < j < |r| ensures Ticks(r[j].createdAt) <= Ticks(r[i].createdAt) {
      assert r[j] == s[j - 1];
      if i > 0 { assert r[i] == s[i - 1]; }
    }
  }

  lemma UnconsSorted(s: seq<Campaign>)
    requires s != [] && SortedNewestFirst(s)
    ensures SortedNewestFirst(s[1..]) && NoNewerThan(s[1..], Ticks(s[0].createdAt))
  {
  }

  lemma {:induction false} InsertNewestFirstIds(s: seq<Campaign>, c: Campaign)
    requires DistinctIds(s) && c.id !in Ids(s)
    ensures var r := InsertNewestFirst(s, c);
      Ids(r) == Ids(s) + {c.id} && DistinctIds(r) && |r| == |s| + 1
      && forall x :: x in r <==> x in s || x == c
  {
    InsertNewestFirstPermutes(s, c);
    InsertNewestFirstDistinct(s, c);
    var r := InsertNewestFirst(s, c);
    assert |r| == |multiset(r)| == |s| + 1;
    forall x ensures x in r <==> x in s || x == c {
      assert x in r <==> x in multiset(r);
      assert x in s <==> x in multiset(s);
    }
    assert Ids(r) == Ids(s) + {c.id} by {
      forall y ensures y in Ids(r) <==> y in Ids(s) + {c.id} {
        if y in Ids(r) { var x :| x in r && x.id == y; }
        if y in Ids(s) { var x :| x in s && x.id == y; assert x in r; }
        if y == c.id { assert c in r; }
      }
    }
  }

  lemma {:induction false} InsertNewestFirstDistinct(s: seq<Campaign>, c: Campaign)
    requires DistinctIds(s) && c.id !in Ids(s)
    ensures DistinctIds(InsertNewestFirst(s, c))
  {
    if s == [] || Ticks(s[0].createdAt) < Ticks(c.createdAt) {
      ConsDistinct(c, s);
    } else {
      var tail := s[1..];
      UnconsDistinct(s);
      InsertNewestFirstDistinct(tail, c);
      var rest := InsertNewestFirst(tail, c);
      InsertNewestFirstPermutes(tail, c);
      forall x | x in rest ensures x.id != s[0].id {
        assert x in multiset(rest);
      }
      ConsDistinct(s[0], rest);
    }
  }

  /** A row whose id is not among the distinct ids of `s` keeps them distinct in front of `s`. */
  lemma ConsDistinct(h: Campaign, s: seq<Campaign>)
    requires DistinctIds(s) && forall x :: x in s ==> x.id != h.id
    ensures DistinctIds([h] + s)
  {
    var r := [h] + s;
    forall i, j | 0 <= i < j < |r| ensures r[i].id != r[j].id {
      assert r[j] == s[j - 1];
      if i > 0 { assert r[i] == s[i - 1]; } else { assert s[j - 1] in s; }
    }
  }

  /** The tail of a list of distinct ids keeps them distinct, and none of them is the head's. */
  lemma UnconsDistinct(s: seq<Campaign>)
    requires s != [] && DistinctIds(s)
    ensures DistinctIds(s[1..]) && forall x :: x in s[1..] ==> x.id != s[0].id
  {
    var tail := s[1..];
    forall i, j | 0 <= i < j < |tail| ensures tail[i].id != tail[j].id {
      assert tail[i] == s[i + 1] && tail[j] == s[j + 1];
    }
    forall x | x in tail ensures x.id != s[0].id {
      var k :| 0 <= k < |tail| && tail[k] == x;
      assert s[k + 1] == x;
    }
  }

  function Ids(s: seq<Campaign>): set<Uuid>
  {
    set c | c in s :: c.id
  }

  predicate DistinctIds(s: seq<Campaign>)
  {
    forall i, j :: 0 <= i < j < |s| ==> s[i].id != s[j].id
  }

  /** The JSON list `[c.to_dict() for c in campaigns]`. */
  function ListBody(s: seq<Campaign>): (body: Json)
    ensures body.JList? && |body.items| == |s|
    ensures forall i :: 0 <= i < |s| ==> body.items[i].JObject? && body.items[i].fields.Keys == CampaignKeys
  {
    JList(seq(|s|, i requires 0 <= i < |s| => JObject(ToDict(s[i]))))
  }

  /** One serialised row per campaign, in the same order. */
  lemma ListBodyItems(s: seq<Campaign>)
    ensures ListBody(s).JList? && |ListBody(s).items| == |s|
    ensures forall i :: 0 <= i < |s| ==> ListBody(s).items[i] == JObject(ToDict(s[i]))
  {
  }

  /** The listing so far: the rows whose ids are not `remaining`, once each, newest first. */
  predicate Collected(rows: map<Uuid, Campaign>, remaining: set<Uuid>, ordered: seq<Campaign>)
  {
    && Ids(ordered) == rows.Keys - remaining
    && DistinctIds(ordered) && |ordered| + |remaining| == |rows.Keys|
    && (forall c :: c in ordered ==> c.id in rows && rows[c.id] == c)
    && SortedNewestFirst(ordered)
  }

  /** Inserting the row of one more remaining id keeps the listing collected. */
  lemma CollectStep(rows: map<Uuid, Campaign>, remaining: set<Uuid>, ordered: seq<Campaign>, k: Uuid)
    requires forall x :: x in rows ==> rows[x].id == x
    requires k in remaining && remaining <= rows.Keys && Collected(rows, remaining, ordered)
    ensures Collected(rows, remaining - {k}, InsertNewestFirst(ordered, rows[k]))
  {
    var c := rows[k];
    assert c.id !in Ids(ordered);
    InsertNewestFirstKeepsOrder(ordered, c);
    InsertNewestFirstIds(ordered, c);
  }

  /** A row that may be stored: under its own id, out of DRAFT only with a Google id, and as its columns hold it. */
  predicate ValidRow(k: Uuid, c: Campaign)
  {
    c.id == k && (c.status != Draft ==> c.googleCampaignId.Some?) && WithinColumns(c)
  }

  predicate ValidRows(rows: map<Uuid, Campaign>)
  {
    forall k :: k in rows ==> ValidRow(k, rows[k])
  }

  /** Storing a valid row keeps the table valid. */
  lemma StoreValidRow(rows: map<Uuid, Campaign>, k: Uuid, c: Campaign)
    requires ValidRows(rows) && ValidRow(k, c)
    ensures ValidRows(rows[k := c])
  {
  }

  /**
   * `ads_service.publish_campaign(campaign.to_dict())`: it succeeds in mock
   * mode without a call, and in live mode exactly when all four calls do.
   */
  function PublishRow(mode: Mode, c: Campaign, clock: PublishClock, replies: PublishReplies): (t: Trace<string>)
    ensures t.outcome.Returns? <==> mode.Mock? || AllCreated(replies)
    ensures mode.Mock? ==> t.submitted == [] && t.outcome == Returns(MockCampaignId(clock.nameTime))
    ensures mode.Live? ==> 1 <= |t.submitted| <= 4
  {
    PublishableCampaignDict(c);
    var data := ToDict(c);
    var customer := if mode.Live? then mode.customerId else "";
    PublishInLiveMode(customer, data, clock, replies);
    PublishStopsAtFirstFailure(customer, data, clock, replies);
    PublishCampaign(mode, data, clock, replies)
  }

  /**
   * Committing a publish stores the Google id when it fits its column, which
   * a mock id always does; an id of more than 255 characters not padded with
   * spaces makes the commit raise.
   */
  lemma PublishCommit(c: Campaign, googleId: string, clock: PublishClock)
    requires WithinColumns(c)
    ensures var p := c.(status := Published, googleCampaignId := Some(googleId));
      && (FitsVarchar(googleId, GoogleIdWidth) ==> StoredRow(p) == Some(p))
      && (|googleId| > GoogleIdWidth && googleId[GoogleIdWidth] != ' ' ==> StoredRow(p).None?)
    ensures FitsVarchar(MockCampaignId(clock.nameTime), GoogleIdWidth)
  {
    var p := c.(status := Published, googleCampaignId := Some(googleId));
    if |googleId| > GoogleIdWidth && googleId[GoogleIdWidth] != ' ' {
      assert googleId[GoogleIdWidth..][0] == googleId[GoogleIdWidth];
      assert NullableVarchar(p.googleCampaignId, GoogleIdWidth).None?;
    }
    var mock := MockCampaignId(clock.nameTime);
    forall i | 0 <= i < |mock| ensures mock[i] != '\0' {
      if i < 17 {
        assert mock[i] == mock[..17][i] == MockIdPrefix[i];
      } else {
        assert mock[i] == mock[17..][i - 17];
      }
    }
  }

  // ------------------------------------------------------------ the store

  /** The `campaigns` table and the ads service the handlers share. */
  class CampaignStore {
    var rows: map<Uuid, Campaign>
    const mode: Mode

    /**
     * Rows sit under their own id, and only a published campaign (or one
     * paused after publishing) has left DRAFT, so every such row carries
     * the Google id its publish recorded.
     */
    predicate Valid()
      reads this
    {
      ValidRows(rows)
    }

    constructor(mode: Mode)
      ensures Valid() && rows == map[] && this.mode == mode
    {
      rows := map[];
      this.mode := mode;
    }

    /**
     * POST /api/campaigns. The first missing required key gives 400; then a
     * date that is not `YYYY-MM-DD` gives 400 and a null date 500; then the
     * row is committed, unless a NOT NULL column is null, the id is taken or
     * a column refuses its value, in which case the commit fails with
     * `dbError` and nothing is stored. The reply shows the row as stored.
     */
    method CreateCampaign(req: CampaignRequest, newId: Uuid, now: Timestamp, dbError: string) returns (resp: Response)
      requires Valid()
      modifies this`rows
      ensures Valid()
      ensures FirstMissing(req, RequiredFields).Some? ==>
        rows == old(rows) && resp == ErrorResponse(400, "Missing field: " + FirstMissing(req, RequiredFields).value)
      ensures FirstMissing(req, RequiredFields).None? && !req.startDate.Absent? && !req.endDate.Absent? ==>
        var dates := CheckDates(req);
        && (dates.BadFormat? ==> rows == old(rows) && resp == ErrorResponse(400, "Invalid date format. Use YYYY-MM-DD"))
        && (dates.NotAString? ==> rows == old(rows) && resp == ErrorResponse(500, "strptime() argument 1 must be str, not None"))
        && (dates.Dates? && (!NotNullSatisfied(req) || newId in old(rows)) ==>
              rows == old(rows) && resp == ErrorResponse(500, dbError))
        && (dates.Dates? && NotNullSatisfied(req) && newId !in old(rows) ==>
              var stored := StoredRow(NewRow(req, dates.start, dates.end, newId, now));
              && (stored.None? ==> rows == old(rows) && resp == ErrorResponse(500, dbError))
              && (stored.Some? ==> rows == old(rows)[newId := stored.value] && resp == Response(201, JObject(ToDict(stored.value)))))
      ensures resp.status == 201 <==> newId !in old(rows) && newId in rows
      ensures resp.status != 201 ==> rows == old(rows)
    {
      for i := 0 to |RequiredFields|
        invariant forall j :: 0 <= j < i ==> Provided(req, RequiredFields[j])
      {
        if !Provided(req, RequiredFields[i]) {
          FirstMissingAt(req, RequiredFields, i);
          return ErrorResponse(400, "Missing field: " + RequiredFields[i]);
        }
      }
      assert FirstMissing(req, RequiredFields).None? by { FirstMissingIsFirst(req, RequiredFields); }
      NoneMissingGivesDates(req);
      var dates := CheckDates(req);
      if dates.BadFormat? {
        return ErrorResponse(400, "Invalid date format. Use YYYY-MM-DD");
      }
      if dates.NotAString? {
        return ErrorResponse(500, "strptime() argument 1 must be str, not None");
      }
      if !NotNullSatisfied(req) || newId in rows {
        return ErrorResponse(500, dbError);
      }
      var stored := StoredRow(NewRow(req, dates.start, dates.end, newId, now));
      if stored.None? {
        return ErrorResponse(500, dbError);
      }
      var c := stored.value;
      StoreValidRow(rows, newId, c);
      rows := rows[newId := c];
      resp := Response(201, JObject(ToDict(c)));
    }

    /**
     * What `Campaign.query.order_by(Campaign.created_at.desc()).all()`
     * returns: every row exactly once, newest `created_at` first. The order of
     * rows with equal timestamps is the database's and is not fixed here.
     */
    method RowsNewestFirst() returns (ordered: seq<Campaign>)
      requires Valid()
      ensures Ids(ordered) == rows.Keys && DistinctIds(ordered) && |ordered| == |rows|
      ensures forall c :: c in ordered ==> c.id in rows && rows[c.id] == c
      ensures SortedNewestFirst(ordered)
    {
      var remaining := rows.Keys;
      ordered := [];
      while remaining != {}
        invariant remaining <= rows.Keys && Collected(rows, remaining, ordered)
        decreases |remaining|
      {
        var k :| k in remaining;
        CollectStep(rows, remaining, ordered, k);
        ordered := InsertNewestFirst(ordered, rows[k]);
        remaining := remaining - {k};
      }
      assert |rows| == |rows.Keys|;
    }

    /** GET /api/campaigns: 200 with every row serialised, newest first; nothing changes. */
    method GetCampaigns() returns (resp: Response, ordered: seq<Campaign>)
      requires Valid()
      ensures Ids(ordered) == rows.Keys && DistinctIds(ordered) && |ordered| == |rows|
      ensures forall c :: c in ordered ==> c.id in rows && rows[c.id] == c
      ensures SortedNewestFirst(ordered)
      ensures resp == Response(200, ListBody(ordered))
    {
      ordered := RowsNewestFirst();
      resp := Response(200, ListBody(ordered));
    }

    /**
     * POST /api/campaigns/<id>/publish. A PUBLISHED campaign is answered
     * with its Google id and no ads call; any other (DRAFT or PAUSED) is
     * published through the ads service and, on success, committed as
     * PUBLISHED with the returned Google id. An ads failure is a 500 and
     * changes nothing; so is a commit the `google_campaign_id` column
     * refuses, although the ads calls have then already been made.
     * `calls` are the ads operations submitted.
     */
    method Publish(id: Uuid, clock: PublishClock, replies: PublishReplies, dbError: string)
      returns (resp: Response, calls: seq<Operation>)
      requires Valid()
      modifies this`rows
      ensures Valid()
      ensures id !in old(rows) ==> rows == old(rows) && calls == [] && resp == LookupRow(old(rows), id).response
      ensures id in old(rows) && old(rows)[id].status == Published ==>
        rows == old(rows) && calls == []
        && resp == Response(200, JObject(map["message" := JStr("Campaign already published"),
                                             "google_id" := StrOrNull(old(rows)[id].googleCampaignId)]))
      ensures id in old(rows) && old(rows)[id].status != Published ==>
        var t := PublishRow(mode, old(rows)[id], clock, replies);
        && calls == t.submitted
        && (t.outcome.Raises? ==>
              rows == old(rows) && resp == ErrorResponse(500, "Google Ads API Error: " + t.outcome.reason))
        && (t.outcome.Returns? ==>
              var stored := StoredRow(old(rows)[id].(status := Published, googleCampaignId := Some(t.outcome.value)));
              && (stored.Some? ==> rows == old(rows)[id := stored.value] && resp == Response(200, JObject(ToDict(stored.value))))
              && (stored.None? ==> rows == old(rows) && resp == ErrorResponse(500, dbError)))
    {
      calls := [];
      var found := LookupRow(rows, id);
      if found.Stop? {
        return found.response, calls;
      }
      var campaign := found.row;
      if campaign.status == Published {
        return Response(200, JObject(map["message" := JStr("Campaign already published"),
                                          "google_id" := StrOrNull(campaign.googleCampaignId)])), calls;
      }
      var t := PublishRow(mode, campaign, clock, replies);
      calls := t.submitted;
      if t.outcome.Raises? {
        return ErrorResponse(500, "Google Ads API Error: " + t.outcome.reason), calls;
      }
      var stored := StoredRow(campaign.(status := Published, googleCampaignId := Some(t.outcome.value)));
      if stored.None? {
        return ErrorResponse(500, dbError), calls;
      }
      var c := stored.value;
      StoreValidRow(rows, id, c);
      rows := rows[id := c];
      resp := Response(200, JObject(ToDict(c)));
    }

    /**
     * POST /api/campaigns/<id>/pause. Only a PUBLISHED campaign is paused
     * (400 and no ads call otherwise); the ads service pauses it by its
     * Google id and, on success, the row becomes PAUSED and keeps that id.
     * The commit cannot be refused: only the status changes, to a value its
     * column holds. An ads failure is a 500 and changes nothing. `calls` are
     * the ads operations submitted.
     */
    method Pause(id: Uuid, reply: MutateReply) returns (resp: Response, calls: seq<Operation>)
      requires Valid()
      modifies this`rows
      ensures Valid()
      ensures id !in old(rows) ==> rows == old(rows) && calls == [] && resp == LookupRow(old(rows), id).response
      ensures id in old(rows) && old(rows)[id].status != Published ==>
        rows == old(rows) && calls == [] && resp == KeyedResponse(400, "message", "Campaign must be PUBLISHED to be paused")
      ensures id in old(rows) && old(rows)[id].status == Published ==>
        old(rows)[id].googleCampaignId.Some? &&
        var t := PauseCampaign(mode, old(rows)[id].googleCampaignId.value, reply);
        && calls == t.submitted
        && (t.outcome.Returns? ==>
              var c := old(rows)[id].(status := Status.Paused);
              rows == old(rows)[id := c] && resp == Response(200, JObject(ToDict(c))))
        && (t.outcome.Raises? ==>
              rows == old(rows) && resp == ErrorResponse(500, "Google Ads API Error: " + t.outcome.reason))
    {
      calls := [];
      var found := LookupRow(rows, id);
      if found.Stop? {
        return found.response, calls;
      }
      var campaign := found.row;
      if campaign.status != Published {
        return KeyedResponse(400, "message", "Campaign must be PUBLISHED to be paused"), calls;
      }
      assert ValidRow(id, campaign);
      var t := PauseCampaign(mode, campaign.googleCampaignId.value, reply);
      calls := t.submitted;
      if t.outcome.Raises? {
        return ErrorResponse(500, "Google Ads API Error: " + t.outcome.reason), calls;
      }
      var c := campaign.(status := Status.Paused);
      assert StoredRow(c) == Some(c);
      StoreValidRow(rows, id, c);
      rows := rows[id := c];
      resp := Response(200, JObject(ToDict(c)));
    }
  }
}
