/** The consultation request form: its fields, the validation that runs on
    submit, the therapist list filtered by the preferred gender, and the
    form / payment / thank-you screens with the delays between them. */
module Contact {
  import opened Text
  import Seqs
  import opened Validation

  datatype Therapist = Therapist(id: nat, name: string, gender: string, specialties: seq<string>)

  const SarahMitchell := Therapist(1, "Dr. Sarah Mitchell", "female", ["Anxiety & Depression", "Trauma Recovery"])
  const MichaelRodriguez := Therapist(2, "Michael Rodriguez", "male", ["Couples Therapy", "Family Counseling"])
  const EmilyChen := Therapist(3, "Dr. Emily Chen", "female", ["Child & Adolescent", "Behavioral Issues"])
  const JamesThompson := Therapist(4, "James Thompson", "male", ["Addiction Recovery", "Crisis Intervention"])
  const LisaPark := Therapist(5, "Dr. Lisa Park", "female", ["Individual Therapy", "Mindfulness"])
  const RobertWilliams := Therapist(6, "Robert Williams", "male", ["Group Therapy", "PTSD Treatment"])

  /** The therapists the form can suggest, in the order it lists them. */
  const Therapists: seq<Therapist> :=
    [SarahMitchell, MichaelRodriguez, EmilyChen, JamesThompson, LisaPark, RobertWilliams]

  /** The form's inputs, one per key of its data record. */
  datatype Field =
    | Name | Email | Phone | Service | Gender | EmploymentStatus
    | TherapistGenderPreference | Message | Urgency | PaymentMethod

  /** The input's `name` attribute, the key `handleChange` writes. */
  function FieldName(f: Field): string {
    match f
    case Name => "name"
    case Email => "email"
    case Phone => "phone"
    case Service => "service"
    case Gender => "gender"
    case EmploymentStatus => "employmentStatus"
    case TherapistGenderPreference => "therapistGenderPreference"
    case Message => "message"
    case Urgency => "urgency"
    case PaymentMethod => "paymentMethod"
  }

  /** The form's data when it first appears. */
  const InitialData: map<Field, string> := map[
    Name := "", Email := "", Phone := "", Service := "", Gender := "", EmploymentStatus := "",
    TherapistGenderPreference := "", Message := "", Urgency := "routine", PaymentMethod := "insurance"]

  /** Every field starts out present and empty, except the urgency
      ("routine") and the payment method ("insurance"). */
  lemma InitialDataFields()
    ensures forall f: Field :: f in InitialData
    ensures forall f: Field :: f != Urgency && f != PaymentMethod ==> InitialData[f] == ""
    ensures InitialData[Urgency] == "routine" && InitialData[PaymentMethod] == "insurance"
  {
    forall f: Field ensures f in InitialData && (f != Urgency && f != PaymentMethod ==> InitialData[f] == "") {
      match f
      case Name =>
      case Email =>
      case Phone =>
      case Service =>
      case Gender =>
      case EmploymentStatus =>
      case TherapistGenderPreference =>
      case Message =>
      case Urgency =>
      case PaymentMethod =>
    }
  }

  const SelfPay := "self-pay"

  /** `therapists.filter(t => t.gender === gender)`. */
  /** The filter's test: `therapist.gender === gender`. */
  function GenderIs(gender: string): Therapist -> bool {
    (t: Therapist) => t.gender == gender
  }

  function FilterByGender(gender: string): seq<Therapist>
  {
    Seqs.Filter(GenderIs(gender), Therapists)
  }

  /** Every therapist has an id of their own. */
  lemma TherapistIdsDistinct()
    ensures forall i, j :: 0 <= i < j < |Therapists| ==> Therapists[i].id != Therapists[j].id
  {
    assert forall i :: 0 <= i < |Therapists| ==> Therapists[i].id == i + 1;
  }

  /** `FilterByGender` lists exactly the therapists of that gender. */
  lemma FilterByGenderMembers(gender: string)
    ensures forall t :: t in FilterByGender(gender) <==> t in Therapists && t.gender == gender
  {
    Seqs.FilterMembers(GenderIs(gender), Therapists);
  }

  /** The filtered list keeps the catalog's order and lists nobody twice. */
  lemma FilterByGenderOrdered(gender: string)
    ensures Seqs.IsSubsequence(FilterByGender(gender), Therapists)
    ensures Seqs.NoDuplicates(FilterByGender(gender))
  {
    Seqs.FilterIsSubsequence(GenderIs(gender), Therapists);
    TherapistIdsDistinct();
    Seqs.FilterNoDuplicates(GenderIs(gender), Therapists);
  }

  lemma MaleTherapists()
    ensures FilterByGender("male") == [MichaelRodriguez, JamesThompson, RobertWilliams]
  {
    var p := GenderIs("male");
    Seqs.FilterCons(p, RobertWilliams, []);
    Seqs.FilterCons(p, LisaPark, [RobertWilliams]);
    Seqs.FilterCons(p, JamesThompson, [LisaPark, RobertWilliams]);
    Seqs.FilterCons(p, EmilyChen, [JamesThompson, LisaPark, RobertWilliams]);
    Seqs.FilterCons(p, MichaelRodriguez, [EmilyChen, JamesThompson, LisaPark, RobertWilliams]);
    Seqs.FilterCons(p, SarahMitchell, [MichaelRodriguez, EmilyChen, JamesThompson, LisaPark, RobertWilliams]);
  }

  lemma FemaleTherapists()
    ensures FilterByGender("female") == [SarahMitchell, EmilyChen, LisaPark]
  {
    var p := GenderIs("female");
    Seqs.FilterCons(p, RobertWilliams, []);
    Seqs.FilterCons(p, LisaPark, [RobertWilliams]);
    Seqs.FilterCons(p, JamesThompson, [LisaPark, RobertWilliams]);
    Seqs.FilterCons(p, EmilyChen, [JamesThompson, LisaPark, RobertWilliams]);
    Seqs.FilterCons(p, MichaelRodriguez, [EmilyChen, JamesThompson, LisaPark, RobertWilliams]);
    Seqs.FilterCons(p, SarahMitchell, [MichaelRodriguez, EmilyChen, JamesThompson, LisaPark, RobertWilliams]);
  }

  /** A value no therapist has (the select offers only the two genders and
      the empty "no preference") filters to nothing. */
  lemma NoSuchGender(gender: string)
    requires gender != "male" && gender != "female"
    ensures FilterByGender(gender) == []
  {
    var p := GenderIs(gender);
    Seqs.FilterCons(p, RobertWilliams, []);
    Seqs.FilterCons(p, LisaPark, [RobertWilliams]);
    Seqs.FilterCons(p, JamesThompson, [LisaPark, RobertWilliams]);
    Seqs.FilterCons(p, EmilyChen, [JamesThompson, LisaPark, RobertWilliams]);
    Seqs.FilterCons(p, MichaelRodriguez, [EmilyChen, JamesThompson, LisaPark, RobertWilliams]);
    Seqs.FilterCons(p, SarahMitchell, [MichaelRodriguez, EmilyChen, JamesThompson, LisaPark, RobertWilliams]);
  }

  /** The phone branch: an empty phone is accepted, a non-empty one must
      match the pattern. */
  function PhoneError(phone: string): Option<Message> {
    if phone != "" && !PhoneValid(phone) then Some(PhoneInvalid) else None
  }

  /** The errors `validateForm` records for the given name, e-mail and
      phone: the keys present are exactly the failing fields, each with
      its message. */
  function ValidationErrors(name: string, email: string, phone: string): (r: map<Field, Message>)
    ensures r.Keys <= {Name, Email, Phone}
  {
    SetIf(NameEmailErrors(Name, Email, name, email), Phone, PhoneError(phone))
  }

  /** Each rule of `validateForm` on its own: the keys present are exactly
      the failing fields, each with its message, and the map is empty
      exactly when all three fields pass. */
  lemma ValidationErrorsRules(name: string, email: string, phone: string)
    ensures var r := ValidationErrors(name, email, phone);
      && (Name in r <==> AllSpace(name))
      && (Name in r ==> r[Name] == NameRequired)
      && (Email in r <==> !EmailLooksValid(email))
      && (Email in r ==> r[Email] == (if AllSpace(email) then EmailRequired else EmailInvalid))
      && (Phone in r <==> phone != "" && !PhoneShaped(phone))
      && (Phone in r ==> r[Phone] == PhoneInvalid)
      && (r == map[] <==> !AllSpace(name) && EmailLooksValid(email) && (phone == "" || PhoneShaped(phone)))
  {
    var c := NameEmailErrors(Name, Email, name, email);
    NameEmailRules(Name, Email, name, email);
    NameEmailOther(Name, Email, name, email, Phone);
    var r := ValidationErrors(name, email, phone);
    assert r == map[] ==> Name !in r && Email !in r && Phone !in r;
  }

  /** The screen the component shows. */
  datatype Screen = ThankYou | PaymentScreen | FormScreen

  class ContactForm {
    var formData: map<Field, string>
    var errors: map<Field, Message>
    var isSubmitted: bool
    var showPayment: bool
    var filteredTherapists: seq<Therapist>
    var isLoading: bool
    /** The 2-second submission delay, if running, with the payment method
        the submit handler read when it started (its closure keeps that
        render's form data, so later edits do not reach it). */
    var submitPending: Option<string>
    /** The 3-second payment delay is running. */
    var paymentPending: bool
    /** The 5-second timer that hides the thank-you message is running. */
    var resetPending: bool

    ghost predicate Valid()
      reads this
    {
      && (forall f: Field :: f in formData)
      && errors.Keys <= {Name, Email, Phone}
      && (isLoading <==> submitPending.Some? || paymentPending)
      && !(submitPending.Some? && paymentPending)
      && (submitPending.Some? ==> !isSubmitted && !showPayment)
      && (paymentPending ==> showPayment && !isSubmitted)
      && (resetPending <==> isSubmitted)
      && !(isSubmitted && showPayment)
    }

    /** `isSubmitted ? thanks : showPayment ? payment : form`. */
    function Screen(): Screen
      reads this
    {
      if isSubmitted then ThankYou else if showPayment then PaymentScreen else FormScreen
    }

    constructor ()
      ensures Valid()
      ensures formData == InitialData && errors == map[]
      ensures !isSubmitted && !showPayment && !isLoading && filteredTherapists == []
      ensures submitPending == None && !paymentPending && !resetPending
    {
      InitialDataFields();
      formData := InitialData;
      errors := map[];
      isSubmitted := false;
      showPayment := false;
      filteredTherapists := [];
      isLoading := false;
      submitPending := None;
      paymentPending := false;
      resetPending := false;
    }

    /** `handleChange` for the input `field`; the inputs exist only
        while the form screen is shown. */
    method HandleChange(field: Field, value: string)
      requires Valid()
      modifies this
      ensures Valid()
      ensures old(Screen()) != FormScreen ==> unchanged(this)
      ensures old(Screen()) == FormScreen ==>
        && formData == old(formData)[field := value]
        && errors == ClearError(old(errors), field)
        && filteredTherapists == (if field == TherapistGenderPreference && value != ""
                                  then FilterByGender(value) else old(filteredTherapists))
      ensures isSubmitted == old(isSubmitted) && showPayment == old(showPayment) && isLoading == old(isLoading)
      ensures submitPending == old(submitPending) && paymentPending == old(paymentPending)
      ensures resetPending == old(resetPending)
    {
      if Screen() == FormScreen {
        formData := formData[field := value];
        if field in errors && MessageText(errors[field]) != "" {
          errors := errors[field := Cleared];
        }
        if field == TherapistGenderPreference && value != "" {
          filteredTherapists := FilterByGender(value);
        }
      }
    }

    /** `validateForm`: records the errors and reports whether there are
        none. */
    method ValidateForm() returns (valid: bool)
      requires Valid()
      modifies this
      ensures Valid()
      ensures errors == ValidationErrors(formData[Name], formData[Email], formData[Phone])
      ensures valid <==> errors == map[]
      ensures formData == old(formData) && isSubmitted == old(isSubmitted) && showPayment == old(showPayment)
      ensures filteredTherapists == old(filteredTherapists) && isLoading == old(isLoading)
      ensures submitPending == old(submitPending) && paymentPending == old(paymentPending)
      ensures resetPending == old(resetPending)
    {
      var newErrors := CheckNameEmail(Name, Email, formData[Name], formData[Email]);
      if formData[Phone] != "" && !PhoneValid(formData[Phone]) {
        newErrors := newErrors[Phone := PhoneInvalid];
      }
      errors := newErrors;
      valid := |newErrors| == 0;
      assert valid <==> newErrors == map[] by {
        if newErrors != map[] {
          var k :| k in newErrors;
        }
      }
    }

    /** `handleSubmit`, from the submit button, which is disabled while
        loading: invalid data only records the errors; valid data starts
        the 2-second delay. */
    method Submit()
      requires Valid()
      modifies this
      ensures Valid()
      ensures old(Screen() != FormScreen || isLoading) ==> unchanged(this)
      ensures old(Screen() == FormScreen && !isLoading) ==>
        && errors == ValidationErrors(formData[Name], formData[Email], formData[Phone])
        && (isLoading <==> errors == map[])
        && submitPending == (if errors == map[] then Some(formData[PaymentMethod]) else None)
      ensures formData == old(formData) && isSubmitted == old(isSubmitted) && showPayment == old(showPayment)
      ensures filteredTherapists == old(filteredTherapists)
      ensures paymentPending == old(paymentPending) && resetPending == old(resetPending)
    {
      if Screen() == FormScreen && !isLoading {
        var valid := ValidateForm();
        if valid {
          isLoading := true;
          submitPending := Some(formData[PaymentMethod]);
        }
      }
    }

    /** The end of the 2-second delay: self-pay leads to the payment
        screen, any other choice to the thank-you message and its 5-second
        timer. */
    method SubmitDelayElapsed()
      requires Valid()
      modifies this
      ensures Valid()
      ensures old(submitPending).None? ==> unchanged(this)
      ensures old(submitPending).Some? ==>
        && submitPending == None && !isLoading
        && (old(submitPending).value == SelfPay ==> showPayment && !isSubmitted && !resetPending)
        && (old(submitPending).value != SelfPay ==> isSubmitted && resetPending && !showPayment)
      ensures formData == old(formData) && errors == old(errors)
      ensures filteredTherapists == old(filteredTherapists) && paymentPending == old(paymentPending)
    {
      if submitPending.Some? {
        if submitPending.value == SelfPay {
          showPayment := true;
        } else {
          isSubmitted := true;
          resetPending := true;
        }
        isLoading := false;
        submitPending := None;
      }
    }

    /** `handlePayment`, from the pay button on the payment screen
        (disabled while loading): starts the 3-second delay. */
    method Pay()
      requires Valid()
      modifies this
      ensures Valid()
      ensures old(Screen() != PaymentScreen || isLoading) ==> unchanged(this)
      ensures old(Screen() == PaymentScreen && !isLoading) ==> isLoading && paymentPending
      ensures formData == old(formData) && errors == old(errors) && isSubmitted == old(isSubmitted)
      ensures showPayment == old(showPayment) && filteredTherapists == old(filteredTherapists)
      ensures submitPending == old(submitPending) && resetPending == old(resetPending)
    {
      if Screen() == PaymentScreen && !isLoading {
        isLoading := true;
        paymentPending := true;
      }
    }

    /** The end of the 3-second delay: the thank-you message replaces the
        payment screen and its 5-second timer starts. */
    method PaymentDelayElapsed()
      requires Valid()
      modifies this
      ensures Valid()
      ensures !old(paymentPending) ==> unchanged(this)
      ensures old(paymentPending) ==> !showPayment && isSubmitted && resetPending && !isLoading && !paymentPending
      ensures formData == old(formData) && errors == old(errors)
      ensures filteredTherapists == old(filteredTherapists) && submitPending == old(submitPending)
    {
      if paymentPending {
        showPayment := false;
        isSubmitted := true;
        resetPending := true;
        isLoading := false;
        paymentPending := false;
      }
    }

    /** The "Back to Form" button on the payment screen (disabled while
        loading). */
    method BackToForm()
      requires Valid()
      modifies this
      ensures Valid()
      ensures old(Screen() != PaymentScreen || isLoading) ==> unchanged(this)
      ensures old(Screen() == PaymentScreen && !isLoading) ==> !showPayment && Screen() == FormScreen
      ensures formData == old(formData) && errors == old(errors) && isSubmitted == old(isSubmitted)
      ensures filteredTherapists == old(filteredTherapists) && isLoading == old(isLoading)
      ensures submitPending == old(submitPending) && paymentPending == old(paymentPending)
      ensures resetPending == old(resetPending)
    {
      if Screen() == PaymentScreen && !isLoading {
        showPayment := false;
      }
    }

    /** The 5-second timer: the thank-you message goes away; the form
        comes back with the data it had. */
    method ResetElapsed()
      requires Valid()
      modifies this
      ensures Valid()
      ensures !old(resetPending) ==> unchanged(this)
      ensures old(resetPending) ==> !isSubmitted && !resetPending && Screen() == FormScreen
      ensures formData == old(formData) && errors == old(errors) && showPayment == old(showPayment)
      ensures filteredTherapists == old(filteredTherapists) && isLoading == old(isLoading)
      ensures submitPending == old(submitPending) && paymentPending == old(paymentPending)
    {
      if resetPending {
        isSubmitted := false;
        resetPending := false;
      }
    }
  }

  /** A valid self-pay request passes through the payment screen: submit,
      2 seconds, pay, 3 seconds, thank-you message, 5 seconds, form. */
  method SelfPayJourney(f: ContactForm) returns (screens: seq<Screen>)
    requires f.Valid() && f.Screen() == FormScreen && !f.isLoading
    requires ValidationErrors(f.formData[Name], f.formData[Email], f.formData[Phone]) == map[]
    requires f.formData[PaymentMethod] == SelfPay
    modifies f
    ensures screens == [FormScreen, PaymentScreen, PaymentScreen, ThankYou, FormScreen]
  {
    f.Submit();
    var s0 := f.Screen();
    f.SubmitDelayElapsed();
    var s1 := f.Screen();
    f.Pay();
    var s2 := f.Screen();
    f.PaymentDelayElapsed();
    var s3 := f.Screen();
    f.ResetElapsed();
    var s4 := f.Screen();
    screens := [s0, s1, s2, s3, s4];
  }

  /** Whatever is typed while the 2-second delay runs, including a new
      payment method, the outcome is decided by the payment method read
      when the form was submitted. */
  method ChangeDuringSubmitDelay(f: ContactForm, field: Field, value: string)
    requires f.Valid() && f.submitPending.Some?
    modifies f
    ensures f.Screen() == (if old(f.submitPending.value) == SelfPay then PaymentScreen else ThankYou)
  {
    f.HandleChange(field, value);
    f.SubmitDelayElapsed();
  }

  /** Submitting a blank form records the name and e-mail errors and starts
      nothing. */
  method BlankSubmit() returns (errors: map<Field, Message>, loading: bool)
    ensures errors == map[Name := NameRequired, Email := EmailRequired]
    ensures !loading
  {
    var f := new ContactForm();
    f.Submit();
    errors, loading := f.errors, f.isLoading;
    assert Name in errors;
  }
}
