/**
 * frontend/src/components/AdGroupForm.tsx: the form's data, the prefill
 * from the ad group being edited, the one-field update, the name check and
 * create/update dispatch of the submit, and the four-step wizard.
 */
module AdGroupFormView {
  import opened Wrappers
  import opened Strings
  import opened UiTypes

  /** `initialFormData`: every text empty, both bids undefined. */
  const InitialFormData: AdGroupFormData :=
    AdGroupFormData("", "", "", None, None, "", "", "", "", "", "", "")

  /**
   * The prefill effect's mapping: `name` and both bids are copied as they
   * are; each other field is the ad group's value, or `''` when it has none.
   */
  function Prefill(g: AdGroup): (d: AdGroupFormData)
    ensures d.name == g.name && d.cpcBid == g.cpcBid && d.cpmBid == g.cpmBid
    ensures d.targetAudience == g.targetAudience.GetOr("") && d.keywords == g.keywords.GetOr("")
    ensures d.adHeadline == g.adHeadline.GetOr("") && d.adHeadline2 == g.adHeadline2.GetOr("")
    ensures d.adHeadline3 == g.adHeadline3.GetOr("")
    ensures d.adDescription == g.adDescription.GetOr("") && d.adDescription2 == g.adDescription2.GetOr("")
    ensures d.finalUrl == g.finalUrl.GetOr("") && d.displayUrl == g.displayUrl.GetOr("")
  {
    AdGroupFormData(
      g.name, g.targetAudience.GetOr(""), g.keywords.GetOr(""), g.cpcBid, g.cpmBid,
      g.adHeadline.GetOr(""), g.adHeadline2.GetOr(""), g.adHeadline3.GetOr(""),
      g.adDescription.GetOr(""), g.adDescription2.GetOr(""),
      g.finalUrl.GetOr(""), g.displayUrl.GetOr(""))
  }

  /** An ad group with only a name and no bids prefills exactly the initial form, but for the name. */
  lemma PrefillOfBareAdGroup(id: string, name: string, status: string)
    ensures Prefill(AdGroup(id, name, status, None, None, None, None, None, None, None, None, None, None, None))
      == InitialFormData.(name := name)
  {
  }

  // ---------------------------------------------------------- fields

  /** The `name` attributes of the form's inputs. */
  datatype FormField =
    | Name | TargetAudience | Keywords | CpcBid | CpmBid
    | AdHeadline | AdHeadline2 | AdHeadline3 | AdDescription | AdDescription2
    | FinalUrl | DisplayUrl

  /** `type === 'number'`: the two bid inputs. */
  predicate IsNumberInput(f: FormField)
  {
    f == CpcBid || f == CpmBid
  }

  /** A field's value: text, or a number that may be undefined. */
  datatype FieldValue = Text(text: string) | Number(number: Option<real>)

  predicate Fits(f: FormField, v: FieldValue)
  {
    IsNumberInput(f) <==> v.Number?
  }

  function Get(d: AdGroupFormData, f: FormField): (v: FieldValue)
    ensures Fits(f, v)
  {
    match f
    case Name => Text(d.name)
    case TargetAudience => Text(d.targetAudience)
    case Keywords => Text(d.keywords)
    case CpcBid => Number(d.cpcBid)
    case CpmBid => Number(d.cpmBid)
    case AdHeadline => Text(d.adHeadline)
    case AdHeadline2 => Text(d.adHeadline2)
    case AdHeadline3 => Text(d.adHeadline3)
    case AdDescription => Text(d.adDescription)
    case AdDescription2 => Text(d.adDescription2)
    case FinalUrl => Text(d.finalUrl)
    case DisplayUrl => Text(d.displayUrl)
  }

  /** `{ ...prev, [name]: value }`: the named field takes the value and every other field keeps its own. */
  function With(d: AdGroupFormData, f: FormField, v: FieldValue): (r: AdGroupFormData)
    requires Fits(f, v)
    ensures Get(r, f) == v
    ensures forall g :: g != f ==> Get(r, g) == Get(d, g)
  {
    match f
    case Name => d.(name := v.text)
    case TargetAudience => d.(targetAudience := v.text)
    case Keywords => d.(keywords := v.text)
    case CpcBid => d.(cpcBid := v.number)
    case CpmBid => d.(cpmBid := v.number)
    case AdHeadline => d.(adHeadline := v.text)
    case AdHeadline2 => d.(adHeadline2 := v.text)
    case AdHeadline3 => d.(adHeadline3 := v.text)
    case AdDescription => d.(adDescription := v.text)
    case AdDescription2 => d.(adDescription2 := v.text)
    case FinalUrl => d.(finalUrl := v.text)
    case DisplayUrl => d.(displayUrl := v.text)
  }

  /** Form data is determined by its fields, so `With` changes nothing a `Get` cannot see. */
  lemma FieldsDetermineForm(a: AdGroupFormData, b: AdGroupFormData)
    requires forall f :: Get(a, f) == Get(b, f)
    ensures a == b
  {
    assert Get(a, Name) == Get(b, Name) && Get(a, TargetAudience) == Get(b, TargetAudience);
    assert Get(a, Keywords) == Get(b, Keywords) && Get(a, CpcBid) == Get(b, CpcBid);
    assert Get(a, CpmBid) == Get(b, CpmBid) && Get(a, AdHeadline) == Get(b, AdHeadline);
    assert Get(a, AdHeadline2) == Get(b, AdHeadline2) && Get(a, AdHeadline3) == Get(b, AdHeadline3);
    assert Get(a, AdDescription) == Get(b, AdDescription) && Get(a, AdDescription2) == Get(b, AdDescription2);
    assert Get(a, FinalUrl) == Get(b, FinalUrl) && Get(a, DisplayUrl) == Get(b, DisplayUrl);
  }

  /** Writing back a field's own value leaves the form as it was. */
  lemma WithOwnValue(d: AdGroupFormData, f: FormField)
    ensures With(d, f, Get(d, f)) == d
  {
    FieldsDetermineForm(With(d, f, Get(d, f)), d);
  }

  /**
   * The value `handleChange` stores: for a number input `''` becomes
   * undefined and anything else `parseFloat(value)`; other inputs keep the
   * string.
   */
  function InputValue(f: FormField, value: string, parseFloat: string -> real): (v: FieldValue)
    ensures Fits(f, v)
    ensures IsNumberInput(f) ==> (v.number.None? <==> value == "")
    ensures !IsNumberInput(f) ==> v == Text(value)
  {
    if IsNumberInput(f) then Number(if value == "" then None else Some(parseFloat(value)))
    else Text(value)
  }

  // --------------------------------------------------------- submit

  /** `!formData.name.trim()`: the name is empty or only white space. */
  function NameMissing(d: AdGroupFormData): (missing: bool)
    ensures missing <==> AllJsWhitespace(d.name)
  {
    TrimEmptyIffAllWhitespace(d.name);
    Trim(d.name) == ""
  }

  /** The save request: update of the edited ad group, or create under the campaign. */
  function SaveCall(d: AdGroupFormData, campaignId: string, adGroup: Option<AdGroup>): (c: ApiCall)
    ensures c.UpdateAdGroup? <==> adGroup.Some?
    ensures c.UpdateAdGroup? ==> c.adGroupId == adGroup.value.id && c.data == d
    ensures c.CreateAdGroup? ==> c.forCampaign == campaignId && c.data == d
  {
    if adGroup.Some? then UpdateAdGroup(adGroup.value.id, d) else CreateAdGroup(campaignId, d)
  }

  /** What step 4 shows: a submit button, disabled while saving; no other step has one. */
  function SubmitButton(step: int, loading: bool): (disabled: Option<bool>)
    ensures disabled.Some? <==> step == 4
    ensures disabled.Some? ==> (disabled.value <==> loading)
  {
    if step == 4 then Some(loading) else None
  }

  // ------------------------------------------------------- controller

  class AdGroupFormController {
    const campaignId: string
    var adGroup: Option<AdGroup>
    var formData: AdGroupFormData
    var loading: bool
    var step: int

    /** The wizard is always on one of its four steps. */
    predicate Valid()
      reads this
    {
      1 <= step <= 4
    }

    /** `isEditing = !!adGroup`. */
    function IsEditing(): (editing: bool)
      reads this
      ensures editing <==> adGroup.Some?
    {
      adGroup.Some?
    }

    /** Mounting: the initial data, replaced by the prefill when an ad group is given; step 1; not loading. */
    constructor(campaignId: string, adGroup: Option<AdGroup>)
      ensures Valid() && step == 1 && !loading
      ensures this.campaignId == campaignId && this.adGroup == adGroup
      ensures formData == if adGroup.Some? then Prefill(adGroup.value) else InitialFormData
    {
      this.campaignId := campaignId;
      this.adGroup := adGroup;
      formData := if adGroup.Some? then Prefill(adGroup.value) else InitialFormData;
      loading := false;
      step := 1;
    }

    /** The prefill effect rerunning on a new `adGroup` prop: a group prefills, `null` keeps the data. */
    method AdGroupChanged(g: Option<AdGroup>)
      modifies this`adGroup, this`formData
      ensures adGroup == g
      ensures formData == if g.Some? then Prefill(g.value) else old(formData)
    {
      adGroup := g;
      if g.Some? {
        formData := Prefill(g.value);
      }
    }

    /** `handleChange`: only the named field changes. */
    method HandleChange(field: FormField, value: string, parseFloat: string -> real)
      modifies this`formData
      ensures formData == With(old(formData), field, InputValue(field, value, parseFloat))
      ensures forall g :: g != field ==> Get(formData, g) == Get(old(formData), g)
    {
      formData := With(formData, field, InputValue(field, value, parseFloat));
    }

    /**
     * `handleSubmit` up to its `await`: a blank name sends nothing and
     * leaves `loading` as it was; otherwise loading starts and the form is
     * sent as an update when editing and as a create otherwise (`isEditing
     * && adGroup` holds exactly when an ad group is given).
     */
    method HandleSubmit() returns (call: Option<ApiCall>)
      modifies this`loading
      ensures NameMissing(formData) ==> call == None && loading == old(loading)
      ensures !NameMissing(formData) ==> loading && call == Some(SaveCall(formData, campaignId, adGroup))
      ensures call.Some? ==> (call.value.UpdateAdGroup? <==> IsEditing())
    {
      if NameMissing(formData) {
        return None;
      }
      loading := true;
      call := Some(SaveCall(formData, campaignId, adGroup));
    }

    /** The rest of `handleSubmit`: `onSuccess` only after a successful save; loading ends either way. */
    method SaveSettled(ok: bool) returns (callOnSuccess: bool)
      modifies this`loading
      ensures !loading && callOnSuccess == ok
    {
      callOnSuccess := ok;
      loading := false;
    }

    /** A step indicator's `setStep(n)`; the form data is not touched. */
    method GoToStep(n: int)
      requires 1 <= n <= 4
      modifies this`step
      ensures Valid() && step == n
    {
      step := n;
    }

    /** A Next button: there is one on steps 1 to 3. */
    method NextStep()
      requires Valid() && step < 4
      modifies this`step
      ensures Valid() && step == old(step) + 1
    {
      step := step + 1;
    }

    /** A Back button: there is one on steps 2 to 4. */
    method PreviousStep()
      requires Valid() && step > 1
      modifies this`step
      ensures Valid() && step == old(step) - 1
    {
      step := step - 1;
    }
  }
}
