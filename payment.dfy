/** The card payment form: the card number and expiry date are shown
    reformatted from what was typed, the billing address is a nested
    record, and a submission "processes" for three seconds before reporting
    success. */
module Payment {
  import opened Text

  // ------------------------------------------------------------ card number

  /** The card number's digits cut into groups of four, the last one
      possibly shorter: what the loop pushes into `parts`. */
  function Groups(m: string): seq<string>
    decreases |m|
  {
    if m == [] then []
    else if |m| <= 4 then [m]
    else [m[..4]] + Groups(m[4..])
  }

  /** The groups laid end to end. */
  function Concat(gs: seq<string>): string {
    if gs == [] then "" else gs[0] + Concat(gs[1..])
  }

  /** A card number as digits in groups of four; only the last group may
      be short, and none is empty. */
  ghost predicate GroupedBy4(gs: seq<string>) {
    && (forall k | 0 <= k < |gs| :: 1 <= |gs[k]| <= 4)
    && (forall k | 0 <= k < |gs| - 1 :: |gs[k]| == 4)
  }

  lemma {:induction false} GroupsSpec(m: string)
    ensures Concat(Groups(m)) == m
    ensures GroupedBy4(Groups(m))
    ensures |Groups(m)| == (|m| + 3) / 4
    decreases |m|
  {
    if |m| > 4 {
      GroupsSpec(m[4..]);
      assert m[..4] + m[4..] == m;
      var gs := Groups(m);
      assert gs[1..] == Groups(m[4..]);
      forall k | 0 < k < |gs| ensures gs[k] == Groups(m[4..])[k - 1] {
      }
    }
  }

  /** One more pass of the loop: the group starting at `i` is pushed. */
  lemma GroupsStep(m: string, i: int)
    requires 0 <= i < |m|
    ensures Groups(m[i..]) == [m[i..Min(i + 4, |m|)]] + Groups(m[Min(i + 4, |m|)..])
  {
    var t := m[i..];
    if |t| > 4 {
      assert t[..4] == m[i..i + 4];
      assert t[4..] == m[i + 4..];
    } else {
      assert m[i..Min(i + 4, |m|)] == t;
      assert m[Min(i + 4, |m|)..] == [];
    }
  }

  /** What the card-number field shows for typed text `value`: with fewer
      than four digits, the digits; otherwise the first sixteen digits at
      most, four to a group, one space between groups. */
  function CardText(value: string): string {
    var v := Digits(value);
    if |v| < 4 then v else Join(Groups(v[..Min(16, |v|)]))
  }

  /** `formatCardNumber`: the `\d{4,16}` match is the leading run of
      digits, at most sixteen long, and the loop slices it in fours. */
  method FormatCardNumber(value: string) returns (r: string)
    ensures r == CardText(value)
  {
    var v := Digits(value);
    var m := if |v| >= 4 then v[..Min(16, |v|)] else "";
    var parts: seq<string> := [];
    var i := 0;
    while i < |m|
      invariant 0 <= i
      invariant parts + Groups(m[Min(i, |m|)..]) == Groups(m)
      decreases |m| - i
    {
      GroupsStep(m, i);
      parts := parts + [m[i..Min(i + 4, |m|)]];
      i := i + 4;
    }
    assert m[Min(i, |m|)..] == [];
    assert parts == Groups(m);
    if |parts| > 0 {
      r := Join(parts);
    } else {
      r := v;
    }
  }

  /** Digits with single spaces between them: no space at either end, and
      none next to another. */
  ghost predicate SpacedDigits(s: string) {
    && (forall i | 0 <= i < |s| :: IsDigit(s[i]) || s[i] == ' ')
    && (forall i | 0 <= i < |s| && s[i] == ' ' :: 0 < i < |s| - 1 && s[i - 1] != ' ' && s[i + 1] != ' ')
  }

  ghost predicate DigitWords(ws: seq<string>) {
    forall k | 0 <= k < |ws| :: ws[k] != [] && AllDigits(ws[k])
  }

  lemma {:induction false} JoinSpacedDigits(ws: seq<string>)
    requires DigitWords(ws)
    ensures SpacedDigits(Join(ws))
    ensures ws != [] ==> Join(ws) != [] && Join(ws)[0] != ' '
  {
    if |ws| > 1 {
      var w, j := ws[0], Join(ws[1..]);
      JoinSpacedDigits(ws[1..]);
      assert DigitWords(ws[1..]) by {
        forall k | 0 <= k < |ws[1..]| ensures ws[1..][k] != [] && AllDigits(ws[1..][k]) {
          assert ws[1..][k] == ws[k + 1];
        }
      }
      assert w != [] && AllDigits(w) by {
        assert ws[0] == w;
      }
      var s := w + " " + j;
      assert s == Join(ws);
      forall i | 0 <= i < |s| ensures IsDigit(s[i]) || s[i] == ' ' {
        if i > |w| {
          assert s[i] == j[i - |w| - 1];
        }
      }
      assert forall i | 0 <= i < |w| :: s[i] == w[i] && s[i] != ' ';
      forall i | 0 <= i < |s| && s[i] == ' '
        ensures 0 < i < |s| - 1 && s[i - 1] != ' ' && s[i + 1] != ' '
      {
        if i > |w| {
          assert s[i] == j[i - |w| - 1];
          assert s[i - 1] == (if i - 1 == |w| then ' ' else j[i - |w| - 2]);
          assert s[i + 1] == j[i - |w|];
        } else if i == |w| {
          assert s[i - 1] == w[|w| - 1];
          assert s[i + 1] == j[0];
        }
      }
    } else if |ws| == 1 {
      assert AllDigits(ws[0]);
    }
  }

  lemma {:induction false} JoinLength(ws: seq<string>)
    requires ws != []
    ensures |Join(ws)| == |Concat(ws)| + |ws| - 1
  {
    if |ws| > 1 {
      JoinLength(ws[1..]);
    }
  }

  lemma {:induction false} DigitsJoin(ws: seq<string>)
    requires DigitWords(ws)
    ensures Digits(Join(ws)) == Concat(ws)
  {
    if |ws| == 1 {
      DigitsOfDigits(ws[0]);
    } else if |ws| > 1 {
      assert DigitWords(ws[1..]) by {
        forall k | 0 <= k < |ws[1..]| ensures ws[1..][k] != [] && AllDigits(ws[1..][k]) {
          assert ws[1..][k] == ws[k + 1];
        }
      }
      DigitsJoin(ws[1..]);
      DigitsOfDigits(ws[0]);
      DigitsAppend(ws[0] + " ", Join(ws[1..]));
      DigitsAppend(ws[0], " ");
      DigitsOfNonDigits(" ");
    }
  }

  /** The groups of a digit string are digit words. */
  lemma GroupsDigitWords(m: string)
    requires AllDigits(m)
    ensures DigitWords(Groups(m))
  {
    var gs := Groups(m);
    GroupsSpec(m);
    forall k | 0 <= k < |gs| ensures gs[k] != [] && AllDigits(gs[k]) {
      GroupDigits(m, k);
    }
  }

  lemma {:induction false} GroupDigits(m: string, k: int)
    requires AllDigits(m) && 0 <= k < |Groups(m)|
    ensures AllDigits(Groups(m)[k])
    decreases |m|
  {
    if |m| > 4 {
      if k > 0 {
        assert AllDigits(m[4..]) by {
          forall i | 0 <= i < |m[4..]| ensures IsDigit(m[4..][i]) {
            assert m[4..][i] == m[i + 4];
          }
        }
        assert Groups(m)[k] == Groups(m[4..])[k - 1];
        GroupDigits(m[4..], k - 1);
      } else {
        assert forall i | 0 <= i < 4 :: m[..4][i] == m[i];
      }
    }
  }

  /** The facts about a long number's display text, given its kept digits. */
  lemma LongCard(m: string)
    requires 4 <= |m| <= 16 && AllDigits(m)
    ensures Digits(Join(Groups(m))) == m
    ensures |Join(Groups(m))| <= 19
    ensures SpacedDigits(Join(Groups(m)))
  {
    GroupsSpec(m);
    GroupsDigitWords(m);
    DigitsJoin(Groups(m));
    JoinLength(Groups(m));
    JoinSpacedDigits(Groups(m));
  }

  lemma TakeDigits(v: string, n: int)
    requires AllDigits(v) && 0 <= n <= |v|
    ensures AllDigits(v[..n])
  {
    assert forall i | 0 <= i < n :: v[..n][i] == v[i];
  }

  /** The card field shows only digits and single spaces, never more than
      the 19 characters its `maxLength` allows. */
  lemma CardTextShape(value: string)
    ensures SpacedDigits(CardText(value))
    ensures |CardText(value)| <= 19
  {
    var v := Digits(value);
    if |v| >= 4 {
      TakeDigits(v, Min(16, |v|));
      LongCard(v[..Min(16, |v|)]);
    } else {
      assert SpacedDigits(v) by {
        forall i | 0 <= i < |v| ensures IsDigit(v[i]) {
        }
      }
    }
  }

  /** Non-digits are dropped; fewer than four digits are shown as they are,
      with no space; from four digits on, the first sixteen at most are
      shown, in groups of four of which only the last may be shorter. */
  lemma CardTextContent(value: string)
    ensures var v := Digits(value);
      && (|v| < 4 ==> CardText(value) == v)
      && (|v| >= 4 ==> exists gs ::
            && GroupedBy4(gs) && Concat(gs) == v[..Min(16, |v|)]
            && CardText(value) == Join(gs))
  {
    var v := Digits(value);
    if |v| >= 4 {
      var gs := Groups(v[..Min(16, |v|)]);
      GroupsSpec(v[..Min(16, |v|)]);
      assert GroupedBy4(gs) && Concat(gs) == v[..Min(16, |v|)] && CardText(value) == Join(gs);
    }
  }

  /** Showing the shown text again changes nothing: the field stores what
      is on screen and formats it once more on every render. */
  lemma CardTextIdempotent(value: string)
    ensures CardText(CardText(value)) == CardText(value)
  {
    var v := Digits(value);
    DigitsOfDigits(v);
    if |v| >= 4 {
      var m := v[..Min(16, |v|)];
      TakeDigits(v, Min(16, |v|));
      LongCard(m);
      assert m[..Min(16, |m|)] == m;
    }
  }

  /** Digits beyond the sixteenth are not shown. */
  lemma CardTextCap(value: string, extra: string)
    requires |Digits(value)| >= 16
    ensures CardText(value + extra) == CardText(value)
  {
    DigitsAppend(value, extra);
    var v := Digits(value);
    assert (v + Digits(extra))[..16] == v[..16];
  }

  lemma CardShortExample()
    ensures CardText("123") == "123"
  {
    assert Digits("123") == "123";
  }

  /** A number of four to sixteen digits is shown as its groups. */
  lemma CardTextOf(value: string, m: string)
    requires Digits(value) == m && 4 <= |m| <= 16
    ensures CardText(value) == Join(Groups(m))
  {
    assert m[..Min(16, |m|)] == m;
  }

  /** The space typed after two digits moves to after the fourth. */
  lemma CardExample()
    ensures CardText("12 345") == "1234 5"
  {
    assert Digits("12 345") == "12345";
    CardTextOf("12 345", "12345");
    var m := "12345";
    assert m[..4] == "1234" && m[4..] == "5";
    assert Groups(m) == ["1234", "5"];
    assert Join(["1234", "5"]) == "1234 5";
  }

  // ------------------------------------------------------------ expiry date

  /** `formatExpiryDate`: the digits, with a slash after the second one
      and at most two more after it. */
  function ExpiryText(value: string): string {
    var v := Digits(value);
    if |v| >= 2 then v[..2] + "/" + v[2..Min(4, |v|)] else v
  }

  /** Fewer than two digits are shown as they are; otherwise the first two,
      a slash and the next two at most, never more than the five characters
      the field allows. */
  lemma ExpiryTextShape(value: string)
    ensures var v := Digits(value); var r := ExpiryText(value);
      && |r| <= 5
      && (|v| < 2 ==> r == v)
      && (|v| >= 2 ==> r[..2] == v[..2] && r[2] == '/' && r[3..] == v[2..Min(4, |v|)])
  {
  }

  /** The digits shown are the first four typed. */
  lemma ExpiryTextDigits(value: string)
    ensures Digits(ExpiryText(value)) == Digits(value)[..Min(4, |Digits(value)|)]
  {
    var v := Digits(value);
    if |v| >= 2 {
      DigitsAppend(v[..2] + "/", v[2..Min(4, |v|)]);
      DigitsAppend(v[..2], "/");
      TakeDigits(v, 2);
      DigitsOfDigits(v[..2]);
      assert AllDigits(v[2..Min(4, |v|)]) by {
        forall i | 0 <= i < |v[2..Min(4, |v|)]| ensures IsDigit(v[2..Min(4, |v|)][i]) {
          assert v[2..Min(4, |v|)][i] == v[i + 2];
        }
      }
      DigitsOfDigits(v[2..Min(4, |v|)]);
      assert v[..2] + v[2..Min(4, |v|)] == v[..Min(4, |v|)];
    } else {
      DigitsOfDigits(v);
    }
  }

  /** The date field, which also shows its formatted text, is stable. */
  lemma ExpiryTextIdempotent(value: string)
    ensures ExpiryText(ExpiryText(value)) == ExpiryText(value)
  {
    var v := Digits(value);
    ExpiryTextDigits(value);
    var w := Digits(ExpiryText(value));
    if |v| >= 2 {
      assert w[..2] == v[..2];
      assert w[2..Min(4, |w|)] == v[2..Min(4, |v|)];
    }
  }

  /** A lone digit is shown as typed; a second one brings the slash. */
  lemma ExpiryExamples()
    ensures ExpiryText("1") == "1"
    ensures ExpiryText("12") == "12/"
  {
    assert Digits("1") == "1";
    assert Digits("12") == "12";
  }

  /** A typed slash is replaced by the generated one, and digits after the
      fourth are dropped. */
  lemma ExpiryFullExamples()
    ensures ExpiryText("12/25") == "12/25"
    ensures ExpiryText("122599") == "12/25"
  {
    assert Digits("12/25") == "1225";
    assert Digits("122599") == "122599";
  }

  // ------------------------------------------------------------ the record

  /** `paymentData`: the top-level text fields by name, and the nested
      billing address by its own field names. */
  datatype PaymentData = PaymentData(fields: map<string, string>, billingAddress: map<string, string>)

  const InitialPayment := PaymentData(
    map["cardNumber" := "", "expiryDate" := "", "cvv" := "", "name" := "", "email" := ""],
    map["street" := "", "city" := "", "state" := "", "zipCode" := ""])

  const BillingPrefix := "billing."

  predicate StartsWith(s: string, p: string) {
    |p| <= |s| && s[..|p|] == p
  }

  /** `s.split('.')[0]`: the text before the first dot. */
  function BeforeDot(s: string): (r: string)
    ensures |r| <= |s| && r == s[..|r|]
    ensures forall i | 0 <= i < |r| :: r[i] != '.'
    ensures |r| < |s| ==> s[|r|] == '.'
  {
    if s == [] || s[0] == '.' then [] else [s[0]] + BeforeDot(s[1..])
  }

  /** `name.split('.')[1]` for a name starting with "billing.": the text
      between the first dot, which ends the prefix, and the next. */
  function BillingField(name: string): string
    requires StartsWith(name, BillingPrefix)
  {
    BeforeDot(name[|BillingPrefix|..])
  }

  /** `handleChange`'s updater: a `billing.` name sets that field of the
      address and leaves the rest of the record; any other name sets that
      top-level field and leaves the address. */
  function ApplyChange(d: PaymentData, name: string, value: string): (r: PaymentData)
    ensures StartsWith(name, BillingPrefix) ==>
      r.billingAddress == d.billingAddress[BillingField(name) := value] && r.fields == d.fields
    ensures !StartsWith(name, BillingPrefix) ==>
      r.fields == d.fields[name := value] && r.billingAddress == d.billingAddress
  {
    if StartsWith(name, BillingPrefix) then
      d.(billingAddress := d.billingAddress[BillingField(name) := value])
    else
      d.(fields := d.fields[name := value])
  }

  /** The field named is the segment after the prefix, cut at any further
      dot. */
  lemma BillingFieldSegment(name: string)
    requires StartsWith(name, BillingPrefix)
    ensures var f := BillingField(name);
      && StartsWith(name[|BillingPrefix|..], f)
      && (forall i | 0 <= i < |f| :: f[i] != '.')
      && ('.' !in name[|BillingPrefix|..] ==> f == name[|BillingPrefix|..])
  {
    var s := name[|BillingPrefix|..];
    var f := BillingField(name);
    if |f| < |s| {
      assert s[|f|] == '.';
    }
  }

  lemma ApplyChangeExamples(d: PaymentData)
    ensures ApplyChange(d, "billing.zipCode", "80202").billingAddress == d.billingAddress["zipCode" := "80202"]
    ensures ApplyChange(d, "cvv", "123").fields == d.fields["cvv" := "123"]
  {
    assert StartsWith("billing.zipCode", BillingPrefix);
    assert "billing.zipCode"[|BillingPrefix|..] == "zipCode";
    BillingFieldSegment("billing.zipCode");
    assert !StartsWith("cvv", BillingPrefix);
  }

  /** Two changes through the same name: the later one wins. */
  lemma ApplyChangeLastWins(d: PaymentData, name: string, a: string, b: string)
    ensures ApplyChange(ApplyChange(d, name, a), name, b) == ApplyChange(d, name, b)
  {
  }

  /** Changes through different names commute. */
  lemma ApplyChangeCommutes(d: PaymentData, n1: string, n2: string, a: string, b: string)
    requires n1 != n2
    requires StartsWith(n1, BillingPrefix) && StartsWith(n2, BillingPrefix) ==> BillingField(n1) != BillingField(n2)
    ensures ApplyChange(ApplyChange(d, n1, a), n2, b) == ApplyChange(ApplyChange(d, n2, b), n1, a)
  {
  }

  // ------------------------------------------------------------ the form

  class PaymentForm {
    var paymentData: PaymentData
    var isProcessing: bool
    /** How many times the form has called `onSuccess` and `onCancel`. */
    var successCalls: nat
    var cancelCalls: nat

    constructor ()
      ensures paymentData == InitialPayment && !isProcessing && successCalls == 0 && cancelCalls == 0
    {
      paymentData := InitialPayment;
      isProcessing := false;
      successCalls := 0;
      cancelCalls := 0;
    }

    /** The card-number field as it is shown. */
    function CardShown(): string
      reads this
    {
      CardText(if "cardNumber" in paymentData.fields then paymentData.fields["cardNumber"] else "")
    }

    /** The card-number and expiry inputs store the raw text typed. */
    method TypeCard(value: string)
      modifies this
      ensures paymentData == old(paymentData).(fields := old(paymentData).fields["cardNumber" := value])
      ensures isProcessing == old(isProcessing) && successCalls == old(successCalls) && cancelCalls == old(cancelCalls)
    {
      paymentData := paymentData.(fields := paymentData.fields["cardNumber" := value]);
    }

    method TypeExpiry(value: string)
      modifies this
      ensures paymentData == old(paymentData).(fields := old(paymentData).fields["expiryDate" := value])
      ensures isProcessing == old(isProcessing) && successCalls == old(successCalls) && cancelCalls == old(cancelCalls)
    {
      paymentData := paymentData.(fields := paymentData.fields["expiryDate" := value]);
    }

    /** The other inputs go through `handleChange`. */
    method HandleChange(name: string, value: string)
      modifies this
      ensures paymentData == ApplyChange(old(paymentData), name, value)
      ensures isProcessing == old(isProcessing) && successCalls == old(successCalls) && cancelCalls == old(cancelCalls)
    {
      if StartsWith(name, BillingPrefix) {
        var field := BillingField(name);
        paymentData := paymentData.(billingAddress := paymentData.billingAddress[field := value]);
      } else {
        paymentData := paymentData.(fields := paymentData.fields[name := value]);
      }
    }

    /** `handleSubmit`, from the Pay button, which is disabled while
        processing: processing starts and its timer runs. */
    method Submit()
      modifies this
      ensures isProcessing
      ensures paymentData == old(paymentData) && successCalls == old(successCalls) && cancelCalls == old(cancelCalls)
    {
      isProcessing := true;
    }

    /** The three-second timer: processing ends and `onSuccess` is called;
        there is no failure outcome. */
    method ProcessingElapsed()
      modifies this
      ensures !old(isProcessing) ==> unchanged(this)
      ensures old(isProcessing) ==> !isProcessing && successCalls == old(successCalls) + 1
      ensures paymentData == old(paymentData) && cancelCalls == old(cancelCalls)
    {
      if isProcessing {
        isProcessing := false;
        successCalls := successCalls + 1;
      }
    }

    /** The Cancel button, disabled while processing. */
    method Cancel()
      modifies this
      ensures old(isProcessing) ==> unchanged(this)
      ensures !old(isProcessing) ==> cancelCalls == old(cancelCalls) + 1
      ensures paymentData == old(paymentData) && isProcessing == old(isProcessing) && successCalls == old(successCalls)
    {
      if !isProcessing {
        cancelCalls := cancelCalls + 1;
      }
    }
  }

  /** Typing the shown card text back into the field shows the same text. */
  method RetypeShownCard(f: PaymentForm)
    modifies f
    ensures f.CardShown() == old(f.CardShown())
  {
    var shown := f.CardShown();
    f.TypeCard(shown);
    CardTextIdempotent(if "cardNumber" in old(f.paymentData.fields) then old(f.paymentData.fields["cardNumber"]) else "");
  }
}
