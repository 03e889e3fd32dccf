/**
 * The `campaigns` table (backend/models.py): the Campaign row, its column
 * defaults, and `to_dict`, the serialiser every handler answers with.
 * Python values that reach JSON are modelled by `Json`; `uuid.UUID`,
 * `datetime.date` and `datetime.datetime` by `Uuid`, `CalendarDate` and
 * `Timestamp`, together with their canonical string forms and, for dates,
 * `datetime.strptime(s, '%Y-%m-%d')`.
 */
module Models {
  import opened Wrappers
  import opened Strings

  /** A JSON value as Flask's `jsonify` writes it and `request.json` reads it. */
  datatype Json =
    | JNull
    | JInt(i: int)
    | JReal(r: real)
    | JStr(s: string)
    | JList(items: seq<Json>)
    | JObject(fields: map<string, Json>)

  function StrOrNull(o: Option<string>): (j: Json)
    ensures j == JNull <==> o == None
  {
    if o.Some? then JStr(o.value) else JNull
  }

  function RealOrNull(o: Option<real>): (j: Json)
    ensures j == JNull <==> o == None
  {
    if o.Some? then JReal(o.value) else JNull
  }

  // ---------------------------------------------------------------- UUIDs

  type Nibble = n: nat | n < 16

  /** A `uuid.UUID`: its 128 bits as 32 hexadecimal nibbles, most significant first. */
  type Uuid = s: seq<Nibble> | |s| == 32 witness seq(32, _ => 0)

  function Hex(ns: seq<Nibble>): (s: string)
    ensures |s| == |ns|
  {
    seq(|ns|, i requires 0 <= i < |ns| => HexChar(ns[i]))
  }

  /** `str(u)`: five groups of 8, 4, 4, 4 and 12 lower-case hex digits separated by `-`. */
  function UuidString(u: Uuid): (s: string)
    ensures |s| == 36
  {
    Hex(u[..8]) + "-" + Hex(u[8..12]) + "-" + Hex(u[12..16]) + "-" + Hex(u[16..20]) + "-" + Hex(u[20..])
  }

  /** Reads back the canonical form `UuidString` writes; anything else is `None`. */
  function ParseUuid(s: string): (r: Option<Uuid>)
  {
    if |s| != 36 || s[8] != '-' || s[13] != '-' || s[18] != '-' || s[23] != '-' then None
    else
      var digits := s[..8] + s[9..13] + s[14..18] + s[19..23] + s[24..];
      if forall i :: 0 <= i < |digits| ==> IsHexDigit(digits[i])
      then Some(seq(32, i requires 0 <= i < 32 => HexValue(digits[i]) as Nibble))
      else None
  }

  lemma UuidRoundTrip(u: Uuid)
    ensures ParseUuid(UuidString(u)) == Some(u)
  {
    var s := UuidString(u);
    assert s[..8] == Hex(u[..8]);
    assert s[9..13] == Hex(u[8..12]);
    assert s[14..18] == Hex(u[12..16]);
    assert s[19..23] == Hex(u[16..20]);
    assert s[24..] == Hex(u[20..]);
    var digits := s[..8] + s[9..13] + s[14..18] + s[19..23] + s[24..];
    assert digits == Hex(u);
    forall i | 0 <= i < 32 ensures HexValue(digits[i]) == u[i] {
      HexRoundTrip(u[i]);
    }
    assert forall i :: 0 <= i < |digits| ==> IsHexDigit(digits[i]);
    var r := seq(32, i requires 0 <= i < 32 => HexValue(digits[i]) as Nibble);
    assert r == u;
  }

  lemma HexRoundTrip(n: Nibble)
    ensures HexValue(HexChar(n)) == n
  {
  }

  /** Distinct UUIDs have distinct string forms, so the frontend can key campaigns by `id`. */
  lemma UuidStringInjective(u: Uuid, v: Uuid)
    ensures UuidString(u) == UuidString(v) ==> u == v
  {
    UuidRoundTrip(u);
    UuidRoundTrip(v);
  }

  // ---------------------------------------------------------------- dates

  datatype Date = Date(year: int, month: int, day: int)

  predicate IsLeapYear(y: int) { y % 4 == 0 && (y % 100 != 0 || y % 400 == 0) }

  function DaysInMonth(year: int, month: int): int
    requires 1 <= month <= 12
  {
    if month == 2 then (if IsLeapYear(year) then 29 else 28)
    else if month == 4 || month == 6 || month == 9 || month == 11 then 30
    else 31
  }

  /** What `datetime.date` accepts: years 1 (MINYEAR) to 9999 (MAXYEAR) and real calendar days. */
  predicate ValidDate(d: Date)
  {
    1 <= d.year <= 9999 && 1 <= d.month <= 12 && 1 <= d.day <= DaysInMonth(d.year, d.month)
  }

  type CalendarDate = d: Date | ValidDate(d) witness Date(1, 1, 1)

  lemma Pow10Values()
    ensures Pow10(2) == 100 && Pow10(4) == 10000 && Pow10(6) == 1000000
  {
  }

  /** `date.isoformat()`: `YYYY-MM-DD`. */
  function IsoDate(d: CalendarDate): (s: string)
    ensures |s| == 10 && s[4] == '-' && s[7] == '-'
  {
    Pow10Values();
    PadDecimal(d.year, 4) + "-" + PadDecimal(d.month, 2) + "-" + PadDecimal(d.day, 2)
  }

  /**
   * The `%m` directive of `strptime`, `1[0-2]|0[1-9]|[1-9]`, followed by the
   * literal `-` of the format: the month and the number of characters it took.
   */
  function MatchMonth(t: string): (r: Option<(int, nat)>)
    ensures r.Some? ==> 1 <= r.value.0 <= 12 && 1 <= r.value.1 < |t| && t[r.value.1] == '-'
  {
    if |t| >= 3 && t[0] == '1' && '0' <= t[1] <= '2' && t[2] == '-' then Some((10 + DigitValue(t[1]), 2))
    else if |t| >= 3 && t[0] == '0' && '1' <= t[1] <= '9' && t[2] == '-' then Some((DigitValue(t[1]), 2))
    else if |t| >= 2 && '1' <= t[0] <= '9' && t[1] == '-' then Some((DigitValue(t[0]), 1))
    else None
  }

  /**
   * The `%d` directive, `3[01]|[12]\d|0[1-9]|[1-9]| [1-9]`, ending the format:
   * the first alternative that matches wins, and the day and its length are returned.
   */
  function MatchDay(t: string): (r: Option<(int, nat)>)
    ensures r.Some? ==> 1 <= r.value.0 <= 31 && 1 <= r.value.1 <= |t|
  {
    if |t| >= 2 && t[0] == '3' && (t[1] == '0' || t[1] == '1') then Some((30 + DigitValue(t[1]), 2))
    else if |t| >= 2 && (t[0] == '1' || t[0] == '2') && IsDigit(t[1]) then Some((10 * DigitValue(t[0]) + DigitValue(t[1]), 2))
    else if |t| >= 2 && t[0] == '0' && '1' <= t[1] <= '9' then Some((DigitValue(t[1]), 2))
    else if |t| >= 1 && '1' <= t[0] <= '9' then Some((DigitValue(t[0]), 1))
    else if |t| >= 2 && t[0] == ' ' && '1' <= t[1] <= '9' then Some((DigitValue(t[1]), 2))
    else None
  }

  /**
   * `datetime.strptime(s, '%Y-%m-%d').date()`; `None` is the `ValueError`.
   * `%Y` takes exactly four digits; the whole string must be consumed
   * ("unconverted data remains" otherwise); the result must be a real date.
   */
  function ParseDate(s: string): (r: Option<CalendarDate>)
    ensures r.Some? ==> 8 <= |s| <= 10 && AllDigits(s[..4]) && s[4] == '-' && r.value.year == DecimalValue(s[..4])
  {
    if |s| < 5 || !AllDigits(s[..4]) || s[4] != '-' then None
    else
      var year := DecimalValue(s[..4]);
      match MatchMonth(s[5..])
      case None => None
      case Some((month, m)) =>
        match MatchDay(s[5 + m + 1..])
        case None => None
        case Some((day, n)) =>
          if 5 + m + 1 + n != |s| then None
          else if ValidDate(Date(year, month, day)) then Some(Date(year, month, day))
          else None
  }

  lemma Pad2(n: nat)
    requires n < 100
    ensures PadDecimal(n, 2) == [DigitChar(n / 10), DigitChar(n % 10)]
  {
    Pow10Values();
    assert PadDecimal(n / 10, 1) == PadDecimal(n / 100, 0) + [DigitChar((n / 10) % 10)];
  }

  /** A zero-padded month followed by the format's `-` matches `%m` in two characters. */
  lemma MatchPaddedMonth(month: int, rest: string)
    requires 1 <= month <= 12
    ensures MatchMonth(PadDecimal(month, 2) + "-" + rest) == Some((month, 2))
  {
    Pad2(month);
  }

  /** A zero-padded day matches `%d` in two characters. */
  lemma MatchPaddedDay(day: int)
    requires 1 <= day <= 31
    ensures MatchDay(PadDecimal(day, 2)) == Some((day, 2))
  {
    Pad2(day);
    var hi, lo := day / 10, day % 10;
    assert day == 10 * hi + lo && hi <= 3;
    var t := PadDecimal(day, 2);
    assert DigitValue(t[0]) == hi && DigitValue(t[1]) == lo;
    if hi == 3 {
      assert lo <= 1 && t[0] == '3';
    } else if hi == 0 {
      assert t[0] == '0' && 1 <= lo;
    }
  }

  /** What `isoformat` writes, `strptime` reads back: the dates `to_dict` emits re-parse to themselves. */
  lemma IsoDateRoundTrip(d: CalendarDate)
    ensures ParseDate(IsoDate(d)) == Some(d)
  {
    Pow10Values();
    var y, m, dd := PadDecimal(d.year, 4), PadDecimal(d.month, 2), PadDecimal(d.day, 2);
    var s := IsoDate(d);
    assert s == y + "-" + (m + "-" + dd);
    assert s[..4] == y && s[4] == '-';
    assert s[5..] == m + "-" + dd;
    MatchPaddedMonth(d.month, dd);
    assert s[8..] == dd;
    MatchPaddedDay(d.day);
  }

  /** A `datetime.datetime` without time zone (what `datetime.utcnow()` returns). */
  datatype DateTime = DateTime(date: CalendarDate, hour: int, minute: int, second: int, microsecond: int)

  predicate ValidDateTime(t: DateTime)
  {
    0 <= t.hour < 24 && 0 <= t.minute < 60 && 0 <= t.second < 60 && 0 <= t.microsecond < 1000000
  }

  type Timestamp = t: DateTime | ValidDateTime(t) witness DateTime(Date(1, 1, 1), 0, 0, 0, 0)

  /** `datetime.isoformat()`: `YYYY-MM-DDTHH:MM:SS`, with `.ffffff` only when there are microseconds. */
  function IsoDateTime(t: Timestamp): (s: string)
    ensures |s| == (if t.microsecond == 0 then 19 else 26)
    ensures s[..10] == IsoDate(t.date) && s[10] == 'T'
  {
    Pow10Values();
    IsoDate(t.date) + "T" + PadDecimal(t.hour, 2) + ":" + PadDecimal(t.minute, 2) + ":" + PadDecimal(t.second, 2)
    + (if t.microsecond == 0 then "" else "." + PadDecimal(t.microsecond, 6))
  }

  /**
   * A number that orders timestamps as Python compares them (year, month, day,
   * hour, minute, second, microsecond, in that order): each field is scaled
   * past the range of every later one.
   */
  function Ticks(t: Timestamp): int
  {
    (((((t.date.year * 13 + t.date.month) * 32 + t.date.day) * 24 + t.hour) * 60 + t.minute) * 60 + t.second) * 1000000
    + t.microsecond
  }

  // ---------------------------------------------------------------- the row

  /** The values the app stores in the `status` column. */
  datatype Status = Draft | Published | Paused {
    function Name(): string
    {
      match this
      case Draft => "DRAFT"
      case Published => "PUBLISHED"
      case Paused => "PAUSED"
    }
  }

  const DefaultStatus: Status := Draft
  const DefaultCampaignType: string := "Demand Gen"
  const DefaultBiddingStrategy: string := "MAXIMIZE_CONVERSIONS"

  /**
   * A row of `campaigns`. The NOT NULL columns (name, objective,
   * daily_budget, start_date, end_date) have no `Option`; `daily_budget` is
   * an Integer column. The columns with a default (campaign_type,
   * bidding_strategy, status, created_at) always hold a value once inserted.
   */
  datatype Campaign = Campaign(
    id: Uuid,
    name: string,
    objective: string,
    campaignType: string,
    dailyBudget: int,
    targetCpa: Option<real>,
    biddingStrategy: string,
    startDate: CalendarDate,
    endDate: CalendarDate,
    status: Status,
    googleCampaignId: Option<string>,
    adGroupName: Option<string>,
    adHeadline: Option<string>,
    adDescription: Option<string>,
    assetUrl: Option<string>,
    createdAt: Timestamp)

  /**
   * The value a defaulted column receives on INSERT: the ORM leaves a
   * `None` attribute out of the statement, so the column default applies
   * both when the attribute was never given and when it was given as `None`.
   */
  function ColumnValue<T>(given: Option<T>, default: T): (v: T)
    ensures given.Some? ==> v == given.value
    ensures given.None? ==> v == default
  {
    given.GetOr(default)
  }

  // ------------------------------------------------------ what a commit stores

  /** The widths of the `String(n)` columns. */
  const NameWidth: nat := 255
  const ObjectiveWidth: nat := 100
  const CampaignTypeWidth: nat := 100
  const StatusWidth: nat := 50
  const GoogleIdWidth: nat := 255
  const AdGroupNameWidth: nat := 255
  const AdHeadlineWidth: nat := 255
  const AssetUrlWidth: nat := 500
  const BiddingStrategyWidth: nat := 50

  /** PostgreSQL `integer`, the type of a `db.Integer` column: 32-bit signed. */
  predicate FitsInteger(n: int) { -0x8000_0000 <= n < 0x8000_0000 }

  predicate NoNul(s: string) { '\0' !in s }

  predicate AllSpaces(s: string) { forall i :: 0 <= i < |s| ==> s[i] == ' ' }

  /** A string a `String(width)` column holds unchanged. */
  predicate FitsVarchar(s: string, width: nat) { |s| <= width && NoNul(s) }

  predicate FitsNullable(o: Option<string>, width: nat) { o.None? || FitsVarchar(o.value, width) }

  /**
   * A string assigned to a `String(width)` column on commit. psycopg2
   * refuses a string holding NUL before it reaches the server; PostgreSQL
   * stores a string of at most `width` characters as it is, cuts a longer
   * one to `width` characters when everything past them is spaces, and
   * refuses it otherwise. `None` is a refusal: the commit raises.
   */
  function Varchar(s: string, width: nat): (r: Option<string>)
    ensures r.Some? <==> NoNul(s) && (|s| <= width || AllSpaces(s[width..]))
    ensures r.Some? ==> FitsVarchar(r.value, width) && |r.value| <= |s| && r.value == s[..|r.value|] && AllSpaces(s[|r.value|..])
    ensures r.Some? ==> |r.value| == |s| || |r.value| == width
    ensures FitsVarchar(s, width) ==> r == Some(s)
  {
    if !NoNul(s) then None
    else if |s| <= width then Some(s)
    else if AllSpaces(s[width..]) then
      assert forall i :: 0 <= i < width ==> s[..width][i] == s[i];
      Some(s[..width])
    else None
  }

  /** A nullable `String(width)` column: SQL NULL is stored as it is. */
  function NullableVarchar(o: Option<string>, width: nat): (r: Option<Option<string>>)
    ensures r.None? <==> o.Some? && Varchar(o.value, width).None?
    ensures r.Some? ==> FitsNullable(r.value, width) && (r.value.None? <==> o.None?)
    ensures FitsNullable(o, width) ==> r == Some(o)
  {
    match o
    case None => Some(None)
    case Some(s) =>
      match Varchar(s, width)
      case None => None
      case Some(v) => Some(Some(v))
  }

  /** A nullable `Text` column: any length, but no NUL. */
  function NullableText(o: Option<string>): (r: Option<Option<string>>)
    ensures r.None? <==> o.Some? && '\0' in o.value
    ensures r.Some? ==> r.value == o
  {
    if o.Some? && !NoNul(o.value) then None else Some(o)
  }

  /**
   * Every value of the row as its column holds it: the strings within their
   * widths and free of NUL, the budget a 32-bit integer. The statuses the
   * app writes are at most nine characters, well within `String(50)`.
   */
  predicate WithinColumns(c: Campaign)
  {
    && FitsVarchar(c.name, NameWidth) && FitsVarchar(c.objective, ObjectiveWidth)
    && FitsVarchar(c.campaignType, CampaignTypeWidth) && FitsInteger(c.dailyBudget)
    && FitsVarchar(c.biddingStrategy, BiddingStrategyWidth)
    && FitsNullable(c.googleCampaignId, GoogleIdWidth) && FitsNullable(c.adGroupName, AdGroupNameWidth)
    && FitsNullable(c.adHeadline, AdHeadlineWidth) && (c.adDescription.None? || NoNul(c.adDescription.value))
    && FitsNullable(c.assetUrl, AssetUrlWidth)
  }

  /** Two rows that differ at most in what the string columns do to their values. */
  predicate SameOutsideStrings(c: Campaign, d: Campaign)
  {
    && d.id == c.id && d.status == c.status && d.dailyBudget == c.dailyBudget
    && d.startDate == c.startDate && d.endDate == c.endDate && d.createdAt == c.createdAt
    && d.targetCpa == c.targetCpa && d.adDescription == c.adDescription
    && (d.googleCampaignId.Some? <==> c.googleCampaignId.Some?)
  }

  /**
   * `db.session.commit()` of the ORM object `c`: the row the table then
   * holds, which is what `to_dict` reads back after the commit expires the
   * object; `None` when a column refuses its value and the commit raises.
   */
  function StoredRow(c: Campaign): (r: Option<Campaign>)
    ensures r.Some? ==> WithinColumns(r.value)
    ensures WithinColumns(c) ==> r == Some(c)
    ensures r.Some? ==> SameOutsideStrings(c, r.value)
  {
    var name, objective := Varchar(c.name, NameWidth), Varchar(c.objective, ObjectiveWidth);
    var campaignType, biddingStrategy := Varchar(c.campaignType, CampaignTypeWidth), Varchar(c.biddingStrategy, BiddingStrategyWidth);
    var googleId, adGroupName := NullableVarchar(c.googleCampaignId, GoogleIdWidth), NullableVarchar(c.adGroupName, AdGroupNameWidth);
    var adHeadline, assetUrl := NullableVarchar(c.adHeadline, AdHeadlineWidth), NullableVarchar(c.assetUrl, AssetUrlWidth);
    var adDescription := NullableText(c.adDescription);
    if && name.Some? && objective.Some? && campaignType.Some? && biddingStrategy.Some? && FitsInteger(c.dailyBudget)
       && googleId.Some? && adGroupName.Some? && adHeadline.Some? && assetUrl.Some? && adDescription.Some?
    then
      Some(c.(name := name.value, objective := objective.value, campaignType := campaignType.value,
              biddingStrategy := biddingStrategy.value, googleCampaignId := googleId.value,
              adGroupName := adGroupName.value, adHeadline := adHeadline.value, assetUrl := assetUrl.value))
    else None
  }

  /**
   * The commit raises for a name of 256 characters whose last one is not a
   * space, and for a daily budget outside 32 bits, 2^31 for one.
   */
  lemma OverlongValuesRefused(c: Campaign)
    ensures |c.name| > NameWidth && c.name[NameWidth] != ' ' ==> StoredRow(c).None?
    ensures !FitsInteger(c.dailyBudget) ==> StoredRow(c).None?
  {
    if |c.name| > NameWidth && c.name[NameWidth] != ' ' {
      assert c.name[NameWidth..][0] == c.name[NameWidth];
    }
  }

  /** A string that fills its width, padded further with spaces, is cut back to itself. */
  lemma PaddedStringIsCut(s: string, width: nat, pad: nat)
    requires FitsVarchar(s, width) && |s| == width
    ensures Varchar(s + seq(pad, _ => ' '), width) == Some(s)
  {
    var padded := s + seq(pad, _ => ' ');
    assert padded[..width] == s;
    assert padded[width..] == seq(pad, _ => ' ');
    assert NoNul(padded) by {
      forall i | 0 <= i < |padded| ensures padded[i] != '\0' {
        if i < width { assert padded[i] == s[i]; }
      }
    }
  }

  /** A stored row whose name is replaced by one the name column cuts back to it commits to the same row. */
  lemma StoredRowCutsName(c: Campaign, name: string)
    requires WithinColumns(c) && Varchar(name, NameWidth) == Some(c.name)
    ensures StoredRow(c.(name := name)) == Some(c)
  {
    var d := c.(name := name);
    assert Varchar(d.objective, ObjectiveWidth) == Some(c.objective);
    assert Varchar(d.campaignType, CampaignTypeWidth) == Some(c.campaignType);
    assert Varchar(d.biddingStrategy, BiddingStrategyWidth) == Some(c.biddingStrategy);
    assert NullableVarchar(d.googleCampaignId, GoogleIdWidth) == Some(c.googleCampaignId);
    assert NullableVarchar(d.adGroupName, AdGroupNameWidth) == Some(c.adGroupName);
    assert NullableVarchar(d.adHeadline, AdHeadlineWidth) == Some(c.adHeadline);
    assert NullableVarchar(d.assetUrl, AssetUrlWidth) == Some(c.assetUrl);
    assert d.(name := c.name) == c;
  }

  const CampaignKeys: set<string> := {
    "id", "name", "objective", "campaign_type", "daily_budget", "target_cpa",
    "bidding_strategy", "start_date", "end_date", "status", "google_campaign_id",
    "ad_group_name", "ad_headline", "ad_description", "asset_url", "created_at" }

  /** The value `to_dict` emits under `key`. */
  function Field(c: Campaign, key: string): Json
  {
    if key == "id" then JStr(UuidString(c.id))
    else if key == "name" then JStr(c.name)
    else if key == "objective" then JStr(c.objective)
    else if key == "campaign_type" then JStr(c.campaignType)
    else if key == "daily_budget" then JInt(c.dailyBudget)
    else if key == "target_cpa" then RealOrNull(c.targetCpa)
    else if key == "bidding_strategy" then JStr(c.biddingStrategy)
    else if key == "start_date" then JStr(IsoDate(c.startDate))
    else if key == "end_date" then JStr(IsoDate(c.endDate))
    else if key == "status" then JStr(c.status.Name())
    else if key == "google_campaign_id" then StrOrNull(c.googleCampaignId)
    else if key == "ad_group_name" then StrOrNull(c.adGroupName)
    else if key == "ad_headline" then StrOrNull(c.adHeadline)
    else if key == "ad_description" then StrOrNull(c.adDescription)
    else if key == "asset_url" then StrOrNull(c.assetUrl)
    else JStr(IsoDateTime(c.createdAt))
  }

  /** `Campaign.to_dict()`. */
  function ToDict(c: Campaign): (d: map<string, Json>)
    ensures d.Keys == CampaignKeys
  {
    map k | k in CampaignKeys :: Field(c, k)
  }

  /** `to_dict` always emits the same sixteen keys. */
  lemma ToDictHasSixteenKeys(c: Campaign)
    ensures |ToDict(c).Keys| == 16
  {
    var keys := ["id", "name", "objective", "campaign_type", "daily_budget", "target_cpa",
      "bidding_strategy", "start_date", "end_date", "status", "google_campaign_id",
      "ad_group_name", "ad_headline", "ad_description", "asset_url", "created_at"];
    assert forall i, j :: 0 <= i < j < |keys| ==> keys[i] != keys[j];
    DistinctCardinality(keys);
    assert CampaignKeys == set k | k in keys;
  }

  lemma {:induction false} DistinctCardinality(keys: seq<string>)
    requires forall i, j :: 0 <= i < j < |keys| ==> keys[i] != keys[j]
    ensures |set k | k in keys| == |keys|
  {
    if keys != [] {
      var rest := keys[1..];
      DistinctCardinality(rest);
      assert (set k | k in keys) == {keys[0]} + (set k | k in rest);
      assert keys[0] !in (set k | k in rest);
    }
  }

  /** `id` is the string form of the row's UUID, and reads back to it. */
  lemma ToDictId(c: Campaign)
    ensures ToDict(c)["id"].JStr? && ParseUuid(ToDict(c)["id"].s) == Some(c.id)
  {
    assert ToDict(c)["id"] == JStr(UuidString(c.id));
    UuidRoundTrip(c.id);
  }

  /** The dates are ISO strings that `strptime('%Y-%m-%d')` parses back to the stored dates. */
  lemma ToDictDates(c: Campaign)
    ensures ToDict(c)["start_date"].JStr? && ParseDate(ToDict(c)["start_date"].s) == Some(c.startDate)
    ensures ToDict(c)["end_date"].JStr? && ParseDate(ToDict(c)["end_date"].s) == Some(c.endDate)
  {
    ToDictDateStrings(c);
    IsoDateRoundTrip(c.startDate);
    IsoDateRoundTrip(c.endDate);
  }

  /** Every optional column is emitted, as null exactly when it holds no value. */
  lemma ToDictOptionals(c: Campaign)
    ensures ToDict(c)["google_campaign_id"] == JNull <==> c.googleCampaignId.None?
    ensures ToDict(c)["ad_group_name"] == JNull <==> c.adGroupName.None?
    ensures ToDict(c)["ad_headline"] == JNull <==> c.adHeadline.None?
    ensures ToDict(c)["ad_description"] == JNull <==> c.adDescription.None?
    ensures ToDict(c)["asset_url"] == JNull <==> c.assetUrl.None?
    ensures ToDict(c)["target_cpa"] == JNull <==> c.targetCpa.None?
  {
    var d := ToDict(c);
    assert d["google_campaign_id"] == StrOrNull(c.googleCampaignId);
    assert d["ad_group_name"] == StrOrNull(c.adGroupName);
    assert d["ad_headline"] == StrOrNull(c.adHeadline);
    assert d["ad_description"] == StrOrNull(c.adDescription);
    assert d["asset_url"] == StrOrNull(c.assetUrl);
    assert d["target_cpa"] == RealOrNull(c.targetCpa);
  }

  lemma ToDictDateStrings(c: Campaign)
    ensures ToDict(c)["start_date"] == JStr(IsoDate(c.startDate))
    ensures ToDict(c)["end_date"] == JStr(IsoDate(c.endDate))
  {
  }

  /** The ad texts are emitted as stored, null when unset. */
  lemma ToDictAdTexts(c: Campaign)
    ensures ToDict(c)["ad_group_name"] == StrOrNull(c.adGroupName)
    ensures ToDict(c)["ad_headline"] == StrOrNull(c.adHeadline)
    ensures ToDict(c)["ad_description"] == StrOrNull(c.adDescription)
    ensures ToDict(c)["asset_url"] == StrOrNull(c.assetUrl)
  {
  }

  /** The NOT NULL and defaulted columns are never emitted as null. */
  lemma ToDictRequiredNeverNull(c: Campaign)
    ensures ToDict(c)["name"] == JStr(c.name) && ToDict(c)["objective"] == JStr(c.objective)
    ensures ToDict(c)["daily_budget"] == JInt(c.dailyBudget)
    ensures ToDict(c)["status"] == JStr(c.status.Name())
    ensures ToDict(c)["campaign_type"].JStr? && ToDict(c)["bidding_strategy"].JStr?
    ensures ToDict(c)["created_at"].JStr?
  {
  }
}
