/** The organization submission wizard of client/pages/OrgSubmit.tsx: five
    steps (0 role, 1 basic info, 2 details, 3 documents, 4 review), a
    per-step validator guarding Continue, a Previous button, the focus-area
    checkboxes and the submit guard. */
module OrgSubmit {
  import opened Text

  datatype Role = Ngo | Funder

  datatype FormData = FormData(
    name: string,
    orgType: string,
    website: string,
    headquarters: string,
    region: string,
    focusAreas: seq<string>,
    mission: string,
    description: string,
    fundingType: string,
    confirmation: bool,
    userRole: Option<Role>)

  const InitialFormData := FormData("", "NGO", "", "", "", [], "", "", "mixed", false, None)

  /** The text inputs handled by handleInputChange. */
  datatype TextField = Name | OrgType | Website | Headquarters | Region | Mission | Description | FundingType

  /** An existing organization as loaded in edit mode. */
  datatype StoredOrganization = StoredOrganization(
    name: string, orgType: string, website: Option<string>, headquarters: string,
    region: string, focusAreas: seq<string>, mission: string, description: string,
    fundingType: string)

  /** The payload handed to submitOrganization / updateOrganization. */
  datatype OrgData = OrgData(
    name: string, orgType: string, website: string, headquarters: string, region: string,
    focusAreas: seq<string>, mission: string, description: string, fundingType: string)

  const LastStep := 4

  // ---------------------------------------------------------------------
  // Pure rules

  /** validateStep: what each step demands before the wizard moves on. */
  function ValidateStep(form: FormData, step: int): (ok: bool)
    ensures step == 0 ==> (ok <==> form.userRole.Some?)
    ensures step == 1 ==> (ok <==> !IsBlank(form.name) && form.orgType != "")
    ensures step == 2 ==>
              (ok <==> (!IsBlank(form.mission) && !IsBlank(form.description)
                        && |form.focusAreas| > 0 && !IsBlank(form.region)))
    ensures step == 4 ==> (ok <==> form.confirmation)
    ensures (step == 3 || step < 0 || step > 4) ==> ok
  {
    if step == 0 then form.userRole.Some?
    else if step == 1 then !IsBlank(form.name) && form.orgType != ""
    else if step == 2 then
      !IsBlank(form.mission) && !IsBlank(form.description) && |form.focusAreas| > 0 && !IsBlank(form.region)
    else if step == 4 then form.confirmation
    else true
  }

  /** handleNext: advance to min(4, step + 1) when the current step validates. */
  function NextStep(form: FormData, step: int): (next: int)
    ensures !ValidateStep(form, step) ==> next == step
    ensures ValidateStep(form, step) ==> next == if step + 1 < LastStep then step + 1 else LastStep
    ensures step <= LastStep ==> next <= LastStep
  {
    if ValidateStep(form, step) then (if step + 1 < LastStep then step + 1 else LastStep) else step
  }

  /** handlePrevious as written: max(1, step - 1). */
  function PreviousStepAsWritten(step: int): (prev: int)
    ensures prev >= 1
    ensures step >= 2 ==> prev == step - 1
    ensures step <= 2 ==> prev == 1
  {
    if step - 1 > 1 then step - 1 else 1
  }

  /** handlePrevious with the step-0 case fixed: from the role step it stays
      put instead of moving on to step 1. */
  function PreviousStep(step: int): (prev: int)
    ensures prev <= step || step < 0
    ensures step >= 1 ==> prev >= 1
    ensures step >= 2 ==> prev == step - 1
    ensures step == 0 ==> prev == 0
  {
    if step == 0 then 0 else PreviousStepAsWritten(step)
  }

  /** getTotalSteps: only the role step exists until a role is chosen. */
  function TotalSteps(form: FormData): (n: int)
    ensures n == 5 || n == 1
    ensures n == 5 <==> form.userRole.Some?
  {
    if form.userRole.Some? then 5 else 1
  }

  /** The navigation bar: Continue below the last step, Submit on it, and
      Previous disabled on step 1. */
  predicate ShowsContinue(form: FormData, step: int) {
    step < TotalSteps(form) - 1
  }

  predicate ShowsSubmit(form: FormData, step: int) {
    step == TotalSteps(form) - 1
  }

  predicate PreviousEnabled(step: int) {
    step != 1
  }

  /** handleFocusAreaChange on the list: checking appends, unchecking
      removes every occurrence. */
  function ToggleFocusArea(areas: seq<string>, area: string, checked: bool): (r: seq<string>)
    ensures checked ==> r == areas + [area]
    ensures !checked ==> area !in r
    ensures !checked ==> forall a :: a != area ==> (a in r <==> a in areas)
    ensures !checked ==> |r| <= |areas|
  {
    if checked then areas + [area] else RemoveAll(areas, area)
  }

  /** `areas.filter((a) => a !== area)` */
  function RemoveAll(areas: seq<string>, area: string): (r: seq<string>)
    ensures area !in r
    ensures forall a :: a != area ==> (a in r <==> a in areas)
    ensures forall a :: a != area ==> multiset(r)[a] == multiset(areas)[a]
    ensures |r| <= |areas|
  {
    if areas == [] then []
    else
      assert areas == [areas[0]] + areas[1..];
      (if areas[0] == area then [] else [areas[0]]) + RemoveAll(areas[1..], area)
  }

  /** Unchecking keeps the other labels in their order: the result is a
      subsequence of the list it was taken from. */
  lemma {:induction false} RemoveAllKeepsOrder(areas: seq<string>, area: string)
    ensures IsSubsequence(RemoveAll(areas, area), areas)
  {
    if areas != [] {
      RemoveAllKeepsOrder(areas[1..], area);
      var tail := RemoveAll(areas[1..], area);
      if areas[0] == area {
        assert RemoveAll(areas, area) == tail;
        SubsequenceDropHead(tail, areas);
      } else {
        assert RemoveAll(areas, area) == [areas[0]] + tail;
        assert ([areas[0]] + tail)[1..] == tail;
      }
    }
  }

  /** Checking a box and unchecking it again leaves no trace of the label. */
  lemma {:induction false} CheckThenUncheck(areas: seq<string>, area: string)
    ensures ToggleFocusArea(ToggleFocusArea(areas, area, true), area, false) == RemoveAll(areas, area)
  {
    RemoveAllAppend(areas, area);
  }

  lemma {:induction false} RemoveAllAppend(areas: seq<string>, area: string)
    ensures RemoveAll(areas + [area], area) == RemoveAll(areas, area)
  {
    if areas == [] {
      assert RemoveAll([area], area) == [] + RemoveAll([], area);
    } else {
      assert (areas + [area])[1..] == areas[1..] + [area];
      RemoveAllAppend(areas[1..], area);
    }
  }

  /** Edit mode: the role is "funder" exactly for Foundation and CSR types. */
  function RoleForType(orgType: string): (r: Role)
    ensures r == Funder <==> orgType == "Foundation" || orgType == "CSR"
  {
    if orgType == "Foundation" || orgType == "CSR" then Funder else Ngo
  }

  function FormForEdit(org: StoredOrganization): (f: FormData)
    ensures f.userRole == Some(RoleForType(org.orgType)) && !f.confirmation
    ensures f.name == org.name && f.orgType == org.orgType && f.focusAreas == org.focusAreas
    ensures f.website == (if org.website.Some? then org.website.value else "")
    ensures f.headquarters == org.headquarters && f.region == org.region
    ensures f.mission == org.mission && f.description == org.description && f.fundingType == org.fundingType
  {
    FormData(org.name, org.orgType, if org.website.Some? then org.website.value else "",
             org.headquarters, org.region, org.focusAreas, org.mission, org.description,
             org.fundingType, false, Some(RoleForType(org.orgType)))
  }

  function OrgDataOf(form: FormData): OrgData {
    OrgData(form.name, form.orgType, form.website, form.headquarters, form.region,
            form.focusAreas, form.mission, form.description, form.fundingType)
  }

  // ---------------------------------------------------------------------
  // Reachable states and the stranded step

  /** The states the wizard can be in: a step in 0..4, and past the role
      step only once a role is chosen. */
  predicate Reachable(form: FormData, step: int) {
    0 <= step <= LastStep && (step >= 1 ==> form.userRole.Some?)
  }

  /** Every reachable state offers a way forward (Continue or Submit). */
  lemma ReachableOffersWayForward(form: FormData, step: int)
    requires Reachable(form, step)
    ensures ShowsContinue(form, step) || ShowsSubmit(form, step)
  {
  }

  /** Continue and the fixed Previous keep the wizard in a reachable state. */
  lemma StepsPreserveReachable(form: FormData, step: int)
    requires Reachable(form, step)
    ensures Reachable(form, NextStep(form, step))
    ensures Reachable(form, PreviousStep(step))
  {
  }

  /** As written, Previous on the role step of a fresh wizard moves forward
      to step 1 with no role: neither Continue nor Submit is shown there and
      Previous is disabled, so the wizard is stuck. */
  lemma PreviousAsWrittenStrandsFreshWizard()
    ensures PreviousStepAsWritten(0) == 1
    ensures !Reachable(InitialFormData, PreviousStepAsWritten(0))
    ensures !ShowsContinue(InitialFormData, 1) && !ShowsSubmit(InitialFormData, 1) && !PreviousEnabled(1)
  {
  }

  // ---------------------------------------------------------------------
  // The page state

  class SubmissionWizard {
    var currentStep: int
    var formData: FormData

    ghost predicate Valid()
      reads this
    {
      Reachable(formData, currentStep)
    }

    /** A new submission starts on the role step with the initial form. */
    constructor ()
      ensures Valid()
      ensures currentStep == 0 && formData == InitialFormData
    {
      currentStep := 0;
      formData := InitialFormData;
    }

    /** Edit mode: the loaded organization fills the form and the wizard
        skips the role step. */
    method LoadForEdit(org: StoredOrganization)
      modifies this
      ensures Valid()
      ensures formData == FormForEdit(org) && currentStep == 1
    {
      formData := FormForEdit(org);
      currentStep := 1;
    }

    /** The role cards of step 0. */
    method SelectRole(role: Role)
      requires Valid()
      modifies this
      ensures Valid()
      ensures formData == old(formData).(userRole := Some(role)) && currentStep == old(currentStep)
    {
      formData := formData.(userRole := Some(role));
    }

    /** handleInputChange for a text input. */
    method SetField(field: TextField, value: string)
      requires Valid()
      modifies this
      ensures Valid() && currentStep == old(currentStep)
      ensures formData == match field
        case Name => old(formData).(name := value)
        case OrgType => old(formData).(orgType := value)
        case Website => old(formData).(website := value)
        case Headquarters => old(formData).(headquarters := value)
        case Region => old(formData).(region := value)
        case Mission => old(formData).(mission := value)
        case Description => old(formData).(description := value)
        case FundingType => old(formData).(fundingType := value)
    {
      match field
      case Name => formData := formData.(name := value);
      case OrgType => formData := formData.(orgType := value);
      case Website => formData := formData.(website := value);
      case Headquarters => formData := formData.(headquarters := value);
      case Region => formData := formData.(region := value);
      case Mission => formData := formData.(mission := value);
      case Description => formData := formData.(description := value);
      case FundingType => formData := formData.(fundingType := value);
    }

    /** The confirmation checkbox of the review step. */
    method SetConfirmation(checked: bool)
      requires Valid()
      modifies this
      ensures Valid() && currentStep == old(currentStep)
      ensures formData == old(formData).(confirmation := checked)
    {
      formData := formData.(confirmation := checked);
    }

    /** handleFocusAreaChange */
    method ChangeFocusArea(area: string, checked: bool)
      requires Valid()
      modifies this
      ensures Valid() && currentStep == old(currentStep)
      ensures formData == old(formData).(focusAreas := ToggleFocusArea(old(formData).focusAreas, area, checked))
    {
      formData := formData.(focusAreas := ToggleFocusArea(formData.focusAreas, area, checked));
    }

    /** handleNext */
    method Next()
      requires Valid()
      modifies this
      ensures Valid() && formData == old(formData)
      ensures currentStep == NextStep(old(formData), old(currentStep))
    {
      if ValidateStep(formData, currentStep) {
        currentStep := if currentStep + 1 < LastStep then currentStep + 1 else LastStep;
      }
    }

    /** handlePrevious, with the step-0 case fixed. */
    method Previous()
      requires Valid()
      modifies this
      ensures Valid() && formData == old(formData)
      ensures currentStep == PreviousStep(old(currentStep))
    {
      if currentStep != 0 {
        currentStep := if currentStep - 1 > 1 then currentStep - 1 else 1;
      }
    }

    /** handleSubmit's guard: nothing is sent unless the review step validates,
        i.e. the confirmation box is ticked. */
    method Submit() returns (sent: Option<OrgData>)
      ensures sent.Some? <==> formData.confirmation
      ensures sent.Some? ==> sent.value == OrgDataOf(formData)
    {
      if !ValidateStep(formData, LastStep) {
        return None;
      }
      sent := Some(OrgDataOf(formData));
    }
  }
}
