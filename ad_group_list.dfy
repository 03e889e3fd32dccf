/**
 * frontend/src/components/AdGroupList.tsx: the list's state cells and
 * handlers, the status counts, the keyword preview and the status badge.
 * As in the campaign list, a request is issued by one step and its reply
 * applied by a later one.
 */
module AdGroupListView {
  import opened Wrappers
  import opened Strings
  import opened UiTypes

  // ------------------------------------------------------------ counts

  /** The ad groups' statuses, in order. */
  function AdGroupStatuses(gs: seq<AdGroup>): (ss: seq<string>)
    ensures |ss| == |gs| && forall i :: 0 <= i < |gs| ==> ss[i] == gs[i].status
  {
    seq(|gs|, i requires 0 <= i < |gs| => gs[i].status)
  }

  /** `adGroups.filter(ag => ag.status === status).length`. */
  function CountWithStatus(gs: seq<AdGroup>, status: string): (n: nat)
    ensures n <= |gs|
    ensures n == 0 <==> forall i :: 0 <= i < |gs| ==> gs[i].status != status
  {
    Count(AdGroupStatuses(gs), status)
  }

  lemma {:induction false} TwoCountsAtMostTotal(ss: seq<string>, a: string, b: string)
    requires a != b
    ensures Count(ss, a) + Count(ss, b) <= |ss|
  {
    if ss != [] {
      TwoCountsAtMostTotal(ss[1..], a, b);
    }
  }

  /** The Active (ENABLED) and Paused counts never add up to more than the total. */
  lemma ActivePlusPausedAtMostTotal(gs: seq<AdGroup>)
    ensures CountWithStatus(gs, "ENABLED") + CountWithStatus(gs, "PAUSED") <= |gs|
  {
    TwoCountsAtMostTotal(AdGroupStatuses(gs), "ENABLED", "PAUSED");
  }

  // --------------------------------------------------- keyword preview

  /** The chips of the keyword preview and the `+N more` note, if any. */
  datatype KeywordPreview = KeywordPreview(shown: seq<string>, more: Option<nat>)

  function Min(a: int, b: int): int { if a <= b then a else b }

  /**
   * `adGroup.keywords && ...`: no preview for a missing or empty string;
   * otherwise the first three comma-separated pieces, trimmed, and
   * `+(n - 3) more` when there are more than three.
   */
  function Preview(keywords: Option<string>): (p: Option<KeywordPreview>)
    ensures p.None? <==> keywords.None? || keywords.value == ""
  {
    if keywords.None? || keywords.value == "" then None
    else
      var parts := Split(keywords.value, ',');
      var n := |parts|;
      Some(KeywordPreview(
        seq(Min(3, n), i requires 0 <= i < Min(3, n) => Trim(parts[i])),
        if n > 3 then Some(n - 3) else None))
  }

  /** With n the number of commas plus one: min(3, n) trimmed pieces, and `+(n - 3) more` exactly when n > 3. */
  lemma PreviewCounts(keywords: string)
    requires keywords != ""
    ensures var p := Preview(Some(keywords)).value;
            var n := Occurrences(keywords, ',') + 1;
            && |p.shown| == Min(3, n)
            && (p.more.Some? <==> n > 3)
            && (p.more.Some? ==> p.more.value == n - 3)
            && forall i :: 0 <= i < |p.shown| ==> p.shown[i] == Trim(Split(keywords, ',')[i])
  {
    SplitLength(keywords, ',');
  }

  /** A keyword string without commas shows as one trimmed chip and no note. */
  lemma PreviewOfOneKeyword(keywords: string)
    requires keywords != "" && ',' !in keywords
    ensures Preview(Some(keywords)) == Some(KeywordPreview([Trim(keywords)], None))
  {
    SplitWithoutSeparator(keywords, ',');
    var p := Preview(Some(keywords)).value;
    assert |p.shown| == 1 && p.shown[0] == Trim(keywords);
    assert p.shown == [Trim(keywords)];
    assert p.more == None;
  }

  // ------------------------------------------------------------ badge

  /** `StatusBadge`: ENABLED reads "Active"; every other status shows its own name. */
  function AdGroupBadge(status: string): (b: Badge)
    ensures b.text == (if status == "ENABLED" then "Active" else status)
    ensures b.styleClass == "status-badge status-published" <==> status == "ENABLED"
    ensures b.styleClass == "status-badge status-draft" <==> status == "PAUSED" || status == "REMOVED"
    ensures b.dotColor == "bg-red-500" <==> status == "REMOVED"
  {
    if status == "ENABLED" then Badge("status-badge status-published", "bg-green-400", "Active")
    else if status == "PAUSED" then Badge("status-badge status-draft", "bg-yellow-500", status)
    else if status == "REMOVED" then Badge("status-badge status-draft", "bg-red-500", status)
    else Badge("status-badge", "bg-slate-400", status)
  }

  // ------------------------------------------------------------ buttons

  /** `disabled={processing === adGroup.id}` on both the delete and the toggle button. */
  predicate ButtonDisabled(processing: Option<string>, id: string): (disabled: bool)
    ensures processing.None? ==> !disabled
    ensures processing.Some? ==> (disabled <==> processing.value == id)
  {
    processing == Some(id)
  }

  /** The toggle's text: `...` while processing, else Pause for an ENABLED group and Enable for any other. */
  function ToggleText(g: AdGroup, processing: Option<string>): (t: string)
    ensures t == "..." <==> ButtonDisabled(processing, g.id)
    ensures t == "Pause" <==> !ButtonDisabled(processing, g.id) && g.status == "ENABLED"
    ensures t == "Enable" <==> !ButtonDisabled(processing, g.id) && g.status != "ENABLED"
  {
    if processing == Some(g.id) then "..." else if g.status == "ENABLED" then "Pause" else "Enable"
  }

  /** The request the toggle sends: pause for ENABLED, enable for any other status. */
  function ToggleCall(g: AdGroup): (c: ApiCall)
    ensures c == PauseAdGroup(g.id) <==> g.status == "ENABLED"
    ensures c == EnableAdGroup(g.id) <==> g.status != "ENABLED"
  {
    if g.status == "ENABLED" then PauseAdGroup(g.id) else EnableAdGroup(g.id)
  }

  // ------------------------------------------------------- controller

  class AdGroupListController {
    const campaignId: string
    var adGroups: seq<AdGroup>
    var loading: bool
    var processing: Option<string>

    /** The first render for `campaign`: empty list, loading, nothing processing; `Mounted` then issues the first fetch. */
    constructor(campaignId: string)
      ensures this.campaignId == campaignId && adGroups == [] && loading && processing == None
    {
      this.campaignId := campaignId;
      adGroups := [];
      loading := true;
      processing := None;
    }

    /** The mount effect on `[campaign.id]`: `fetchAdGroups()`, asking for this campaign's ad groups. */
    method Mounted() returns (call: ApiCall)
      modifies this`loading
      ensures loading && call == GetAdGroups(campaignId)
    {
      call := FetchAdGroups();
    }

    /** `fetchAdGroups` up to its `await`: sets loading and asks for the campaign's ad groups. */
    method FetchAdGroups() returns (call: ApiCall)
      modifies this`loading
      ensures loading && call == GetAdGroups(campaignId)
    {
      loading := true;
      call := GetAdGroups(campaignId);
    }

    /** `fetchAdGroups` settling: a reply replaces the list, a failure keeps it; loading ends either way. */
    method FetchSettled(reply: Option<seq<AdGroup>>)
      modifies this`adGroups, this`loading
      ensures !loading
      ensures adGroups == if reply.Some? then reply.value else old(adGroups)
    {
      if reply.Some? {
        adGroups := reply.value;
      }
      loading := false;
    }

    /** `handleDelete(id)` up to its `await`: a cancelled confirmation sends nothing and changes nothing. */
    method HandleDelete(id: string, confirmed: bool) returns (call: Option<ApiCall>)
      modifies this`processing
      ensures !confirmed ==> call == None && processing == old(processing)
      ensures confirmed ==> call == Some(DeleteAdGroup(id)) && processing == Some(id)
    {
      if !confirmed {
        return None;
      }
      processing := Some(id);
      call := Some(DeleteAdGroup(id));
    }

    /** `handleToggleStatus(adGroup)` up to its `await`. */
    method HandleToggleStatus(g: AdGroup) returns (call: ApiCall)
      modifies this`processing
      ensures processing == Some(g.id) && call == ToggleCall(g)
    {
      processing := Some(g.id);
      call := ToggleCall(g);
    }

    /**
     * The rest of `handleDelete` or `handleToggleStatus` once the request
     * settles: success starts `fetchAdGroups` (which sets loading at once),
     * failure leaves everything but `processing` as it was; `processing` is
     * cleared in both cases.
     */
    method ActionSettled(ok: bool) returns (refetch: Option<ApiCall>)
      modifies this`processing, this`loading
      ensures processing == None
      ensures ok ==> refetch == Some(GetAdGroups(campaignId)) && loading
      ensures !ok ==> refetch == None && loading == old(loading)
    {
      refetch := None;
      if ok {
        var call := FetchAdGroups();
        refetch := Some(call);
      }
      processing := None;
    }
  }
}
