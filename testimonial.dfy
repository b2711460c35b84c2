/** The "Share Your Story" form: a testimonial with a star rating and two
    privacy check boxes, validated on submit, acknowledged for five seconds
    and then cleared. */
module Testimonial {
  import opened Text
  import opened Validation

  /** The shortest testimonial accepted, in JavaScript `.length` units. */
  const MinLength := 50

  /** The form's inputs, by their `name` attribute. */
  datatype Input = Name | Location | Email | Treatment | Testimonial | AllowPublic | AllowName

  /** The two privacy options are check boxes; every other input carries
      text. */
  predicate IsCheckbox(i: Input) {
    i == AllowPublic || i == AllowName
  }

  datatype Story = Story(
    name: string, location: string, email: string, rating: int,
    treatment: string, testimonial: string, allowPublic: bool, allowName: bool)

  /** The record the form starts from and returns to after a submission. */
  const InitialStory := Story("", "", "", 5, "", "", false, false)

  const TreatmentOptions: seq<string> := [
    "Individual Therapy", "Couples Therapy", "Family Therapy", "Child & Adolescent Therapy",
    "Group Therapy", "Crisis Intervention", "EMDR Therapy", "Addiction Recovery", "Other"
  ]

  /** What an input holds: text or a check-box state. */
  datatype Value = Text(s: string) | Flag(b: bool)

  function Get(d: Story, i: Input): Value {
    match i
    case Name => Text(d.name)
    case Location => Text(d.location)
    case Email => Text(d.email)
    case Treatment => Text(d.treatment)
    case Testimonial => Text(d.testimonial)
    case AllowPublic => Flag(d.allowPublic)
    case AllowName => Flag(d.allowName)
  }

  /** A change event from one input: its `name`, its `value` and, for a
      check box, its `checked` state. */
  datatype ChangeEvent = ChangeEvent(target: Input, value: string, checked: bool)

  /** `{...prev, [name]: type === 'checkbox' ? checked : value}`: the
      target input takes the event's value (the check-box state for a check
      box), and nothing else in the record changes. */
  function ApplyChange(d: Story, e: ChangeEvent): (r: Story)
    ensures Get(r, e.target) == if IsCheckbox(e.target) then Flag(e.checked) else Text(e.value)
    ensures forall i: Input :: i != e.target ==> Get(r, i) == Get(d, i)
    ensures r.rating == d.rating
  {
    match e.target
    case Name => d.(name := e.value)
    case Location => d.(location := e.value)
    case Email => d.(email := e.value)
    case Treatment => d.(treatment := e.value)
    case Testimonial => d.(testimonial := e.value)
    case AllowPublic => d.(allowPublic := e.checked)
    case AllowName => d.(allowName := e.checked)
  }

  /** The record is determined by what its inputs hold and its rating. */
  lemma StoryExtensional(d: Story, d': Story)
    requires forall i: Input :: Get(d, i) == Get(d', i)
    requires d.rating == d'.rating
    ensures d == d'
  {
    assert Get(d, Name) == Get(d', Name);
    assert Get(d, Location) == Get(d', Location);
    assert Get(d, Email) == Get(d', Email);
    assert Get(d, Treatment) == Get(d', Treatment);
    assert Get(d, Testimonial) == Get(d', Testimonial);
    assert Get(d, AllowPublic) == Get(d', AllowPublic);
    assert Get(d, AllowName) == Get(d', AllowName);
  }

  /** Typing the value an input already holds changes nothing. */
  lemma ApplyChangeSameValue(d: Story, e: ChangeEvent)
    requires Get(d, e.target) == (if IsCheckbox(e.target) then Flag(e.checked) else Text(e.value))
    ensures ApplyChange(d, e) == d
  {
    StoryExtensional(ApplyChange(d, e), d);
  }

  /** Two changes to the same input: the later one wins. */
  lemma ApplyChangeLastWins(d: Story, e1: ChangeEvent, e2: ChangeEvent)
    requires e1.target == e2.target
    ensures ApplyChange(ApplyChange(d, e1), e2) == ApplyChange(d, e2)
  {
    StoryExtensional(ApplyChange(ApplyChange(d, e1), e2), ApplyChange(d, e2));
  }

  /** `handleRatingChange(star)`: the rating becomes `star`; nothing
      else changes. */
  function Rate(d: Story, star: int): (r: Story)
    ensures r.rating == star
    ensures forall i: Input :: Get(r, i) == Get(d, i)
  {
    d.(rating := star)
  }

  /** The testimonial rule as the two assignments leave it: the length
      check is made on the untrimmed text and, being second, overrides the
      blank check. */
  function TestimonialError(t: string): Option<Message> {
    if JsLength(t) < MinLength then Some(TooShort)
    else if Trim(t) == [] then Some(ShareRequired)
    else None
  }

  function TreatmentError(treatment: string): Option<Message> {
    if treatment == "" then Some(TreatmentRequired) else None
  }

  /** The errors `validateForm` records. */
  function StoryErrors(d: Story): (r: map<Input, Message>)
    ensures r.Keys <= {Name, Email, Testimonial, Treatment}
  {
    SetIf(SetIf(NameEmailErrors(Name, Email, d.name, d.email),
      Testimonial, TestimonialError(d.testimonial)), Treatment, TreatmentError(d.treatment))
  }

  /** The name and e-mail rules, as on the contact form. */
  lemma StoryErrorsContact(d: Story)
    ensures var r := StoryErrors(d);
      && (Name in r <==> AllSpace(d.name))
      && (Name in r ==> r[Name] == NameRequired)
      && (Email in r <==> !EmailLooksValid(d.email))
      && (Email in r ==> r[Email] == (if AllSpace(d.email) then EmailRequired else EmailInvalid))
  {
    NameEmailRules(Name, Email, d.name, d.email);
    StoryErrorsKeep(d, Name);
    StoryErrorsKeep(d, Email);
  }

  /** The last two checks leave the name and e-mail entries alone. */
  lemma StoryErrorsKeep(d: Story, k: Input)
    requires k == Name || k == Email
    ensures var c := NameEmailErrors(Name, Email, d.name, d.email);
      var r := StoryErrors(d);
      (k in r <==> k in c) && (k in r ==> r[k] == c[k])
  {
    var c := NameEmailErrors(Name, Email, d.name, d.email);
    var t := SetIf(c, Testimonial, TestimonialError(d.testimonial));
  }

  /** The testimonial rule: too short under 50 units, otherwise missing
      when blank. */
  lemma StoryErrorsTestimonial(d: Story)
    ensures var r := StoryErrors(d);
      && (Testimonial in r <==> JsLength(d.testimonial) < MinLength || AllSpace(d.testimonial))
      && (Testimonial in r ==>
            r[Testimonial] == (if JsLength(d.testimonial) < MinLength then TooShort else ShareRequired))
  {
    TrimEmptyIffAllSpace(d.testimonial);
    var c := NameEmailErrors(Name, Email, d.name, d.email);
    var t := SetIf(c, Testimonial, TestimonialError(d.testimonial));
    NameEmailOther(Name, Email, d.name, d.email, Testimonial);
  }

  lemma StoryErrorsTreatment(d: Story)
    ensures var r := StoryErrors(d);
      && (Treatment in r <==> d.treatment == "")
      && (Treatment in r ==> r[Treatment] == TreatmentRequired)
  {
  }

  /** Every treatment the picker lists is accepted; only its "Select
      treatment type" placeholder, the empty value, is not. */
  lemma TreatmentPicker(d: Story)
    ensures |TreatmentOptions| == 9 && "" !in TreatmentOptions
    ensures d.treatment in TreatmentOptions ==> Treatment !in StoryErrors(d)
  {
    StoryErrorsTreatment(d);
  }

  /** The form is accepted exactly when all four rules pass. */
  lemma StoryErrorsEmpty(d: Story)
    ensures StoryErrors(d) == map[] <==>
      && !AllSpace(d.name) && EmailLooksValid(d.email)
      && JsLength(d.testimonial) >= MinLength && !AllSpace(d.testimonial)
      && d.treatment != ""
  {
    StoryErrorsContact(d);
    StoryErrorsTestimonial(d);
    StoryErrorsTreatment(d);
    var r := StoryErrors(d);
    assert r == map[] ==> Name !in r && Email !in r && Testimonial !in r && Treatment !in r;
  }

  /** An empty testimonial is reported as too short, never as missing:
      the second assignment overwrites the first. */
  lemma EmptyTestimonialIsTooShort()
    ensures TestimonialError("") == Some(TooShort)
  {
  }

  /** "Please share your experience" is shown only for text of at least
      50 units that is all white space. */
  lemma ShareOnlyForLongBlank(t: string)
    ensures TestimonialError(t) == Some(ShareRequired) <==> JsLength(t) >= MinLength && AllSpace(t)
  {
    TrimEmptyIffAllSpace(t);
  }

  /** For text without astral characters the limit is exactly 50
      characters, and text is not trimmed before it is measured. */
  lemma LengthBoundary(t: string)
    requires Bmp(t)
    ensures |t| < 50 ==> TestimonialError(t) == Some(TooShort)
    ensures |t| >= 50 && !AllSpace(t) ==> TestimonialError(t) == None
  {
    JsLengthBmp(t);
    TrimEmptyIffAllSpace(t);
  }

  /** Twenty-five astral characters (emoji, say) are 50 UTF-16 units:
      `.length` counts units, so they pass the length check. */
  lemma AstralTextCountsDouble(t: string)
    requires |t| == 25 && forall i :: 0 <= i < |t| ==> t[i] as int > 0xFFFF
    ensures JsLength(t) == 50
    ensures TestimonialError(t) == None
  {
    AstralLength(t);
    assert !IsSpace(t[0]);
    TrimEmptyIffAllSpace(t);
  }

  lemma {:induction false} AstralLength(t: string)
    requires forall i :: 0 <= i < |t| ==> t[i] as int > 0xFFFF
    ensures JsLength(t) == 2 * |t|
  {
    if t != [] {
      assert forall i :: 0 <= i < |t[1..]| ==> t[1..][i] == t[i + 1];
      AstralLength(t[1..]);
    }
  }

  class StoryForm {
    var formData: Story
    var errors: map<Input, Message>
    var isSubmitted: bool
    var isLoading: bool
    /** The 2-second submission delay is running. */
    var submitPending: bool
    /** The 5-second timer that clears the form is running. */
    var resetPending: bool

    ghost predicate Valid()
      reads this
    {
      && 1 <= formData.rating <= 5
      && errors.Keys <= {Name, Email, Testimonial, Treatment}
      && (isLoading <==> submitPending)
      && (submitPending ==> !isSubmitted)
      && (resetPending <==> isSubmitted)
    }

    constructor ()
      ensures Valid()
      ensures formData == InitialStory && errors == map[]
      ensures !isSubmitted && !isLoading && !submitPending && !resetPending
    {
      formData := InitialStory;
      errors := map[];
      isSubmitted := false;
      isLoading := false;
      submitPending := false;
      resetPending := false;
    }

    /** `handleChange`, from an input of the form (shown while no thank-you
        message is). */
    method HandleChange(e: ChangeEvent)
      requires Valid()
      modifies this
      ensures Valid()
      ensures old(isSubmitted) ==> unchanged(this)
      ensures !old(isSubmitted) ==> formData == ApplyChange(old(formData), e) && errors == ClearError(old(errors), e.target)
      ensures isSubmitted == old(isSubmitted) && isLoading == old(isLoading)
      ensures submitPending == old(submitPending) && resetPending == old(resetPending)
    {
      if !isSubmitted {
        var finalValue := if IsCheckbox(e.target) then Flag(e.checked) else Text(e.value);
        formData := match e.target
          case Name => formData.(name := e.value)
          case Location => formData.(location := e.value)
          case Email => formData.(email := e.value)
          case Treatment => formData.(treatment := e.value)
          case Testimonial => formData.(testimonial := e.value)
          case AllowPublic => formData.(allowPublic := finalValue.b)
          case AllowName => formData.(allowName := finalValue.b);
        if e.target in errors && MessageText(errors[e.target]) != "" {
          errors := errors[e.target := Cleared];
        }
      }
    }

    /** A star button, numbered 1 to 5. */
    method RateChange(star: int)
      requires Valid() && 1 <= star <= 5
      modifies this
      ensures Valid()
      ensures old(isSubmitted) ==> unchanged(this)
      ensures !old(isSubmitted) ==> formData == Rate(old(formData), star)
      ensures errors == old(errors) && isSubmitted == old(isSubmitted) && isLoading == old(isLoading)
      ensures submitPending == old(submitPending) && resetPending == old(resetPending)
    {
      if !isSubmitted {
        formData := formData.(rating := star);
      }
    }

    /** `validateForm`: the checks in order, the later testimonial message
        overwriting the earlier one. */
    method ValidateForm() returns (valid: bool)
      requires Valid()
      modifies this
      ensures Valid()
      ensures errors == StoryErrors(formData)
      ensures valid <==> errors == map[]
      ensures formData == old(formData) && isSubmitted == old(isSubmitted) && isLoading == old(isLoading)
      ensures submitPending == old(submitPending) && resetPending == old(resetPending)
    {
      var d := formData;
      var newErrors := CheckNameEmail(Name, Email, d.name, d.email);
      ghost var contact := newErrors;
      if Trim(d.testimonial) == [] {
        newErrors := newErrors[Testimonial := ShareRequired];
      }
      if JsLength(d.testimonial) < MinLength {
        newErrors := newErrors[Testimonial := TooShort];
        assert newErrors == contact[Testimonial := TooShort] by {
          UpdateTwice(contact, Testimonial, ShareRequired, TooShort);
        }
      }
      assert newErrors == SetIf(contact, Testimonial, TestimonialError(d.testimonial));
      if d.treatment == "" {
        newErrors := newErrors[Treatment := TreatmentRequired];
      }
      assert newErrors == StoryErrors(d);
      errors := newErrors;
      valid := |newErrors| == 0;
      assert valid <==> newErrors == map[] by {
        if newErrors != map[] {
          var k :| k in newErrors;
        }
      }
    }

    /** `handleSubmit`, from the submit button (disabled while loading). */
    method Submit()
      requires Valid()
      modifies this
      ensures Valid()
      ensures old(isSubmitted || isLoading) ==> unchanged(this)
      ensures !old(isSubmitted || isLoading) ==>
        && errors == StoryErrors(formData)
        && (submitPending <==> errors == map[])
      ensures formData == old(formData) && isSubmitted == old(isSubmitted) && resetPending == old(resetPending)
    {
      if !isSubmitted && !isLoading {
        var valid := ValidateForm();
        if valid {
          isLoading := true;
          submitPending := true;
        }
      }
    }

    /** The end of the 2-second delay: the thank-you message and its
        5-second timer. */
    method SubmitDelayElapsed()
      requires Valid()
      modifies this
      ensures Valid()
      ensures !old(submitPending) ==> unchanged(this)
      ensures old(submitPending) ==> isSubmitted && resetPending && !isLoading && !submitPending
      ensures formData == old(formData) && errors == old(errors)
    {
      if submitPending {
        isSubmitted := true;
        resetPending := true;
        isLoading := false;
        submitPending := false;
      }
    }

    /** The 5-second timer: the message goes and the form starts over. */
    method ResetElapsed()
      requires Valid()
      modifies this
      ensures Valid()
      ensures !old(resetPending) ==> unchanged(this)
      ensures old(resetPending) ==> !isSubmitted && !resetPending && formData == InitialStory
      ensures errors == old(errors) && isLoading == old(isLoading) && submitPending == old(submitPending)
    {
      if resetPending {
        isSubmitted := false;
        formData := InitialStory;
        resetPending := false;
      }
    }
  }

  /** Once the thank-you message has gone, the form holds the initial
      record again whatever was typed before. */
  method SubmitAndReset(f: StoryForm) returns (data: Story)
    requires f.Valid() && !f.isSubmitted && !f.isLoading
    requires StoryErrors(f.formData) == map[]
    modifies f
    ensures data == InitialStory
  {
    f.Submit();
    f.SubmitDelayElapsed();
    f.ResetElapsed();
    data := f.formData;
  }
}
