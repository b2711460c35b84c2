/** The field rules shared by the contact form and the testimonial form:
    the required-name rule, the e-mail rule `/\S+@\S+\.\S+/` (unanchored),
    the phone rule `/^\(?([0-9]{3})\)?[-. ]?([0-9]{3})[-. ]?([0-9]{4})$/`,
    the error maps they build, and the "clear the error on typing" update. */
module Validation {
  import opened Text

  datatype Option<T> = None | Some(value: T)

  /** The messages the two forms show under a field, and `Cleared`, the
      empty message a field's entry is set to once the field is edited. */
  datatype Message =
    | Cleared | NameRequired | EmailRequired | EmailInvalid | PhoneInvalid
    | ShareRequired | TooShort | TreatmentRequired

  /** The text shown; only the cleared entry is empty, so `errors[name]`
      is truthy exactly for the other messages. */
  function MessageText(m: Message): (s: string)
    ensures s == "" <==> m == Cleared
  {
    match m
    case Cleared => ""
    case NameRequired => "Name is required"
    case EmailRequired => "Email is required"
    case EmailInvalid => "Please enter a valid email address"
    case PhoneInvalid => "Please enter a valid phone number"
    case ShareRequired => "Please share your experience"
    case TooShort => "Please provide at least 50 characters"
    case TreatmentRequired => "Please select your treatment type"
  }

  // ---------------------------------------------------------------- e-mail

  /** A match of `\S+@\S+\.\S+` whose `@` is at `at` and whose `.` is at
      `dot`: one non-space before the `@`, a non-empty non-space run up to
      the `.`, one non-space after it. Longer runs on either side do not
      change whether a match exists. */
  predicate EmailMatchAt(s: string, at: int, dot: int) {
    && 1 <= at && at + 1 < dot && dot + 1 < |s|
    && s[at] == '@' && s[dot] == '.'
    && !IsSpace(s[at - 1]) && !IsSpace(s[dot + 1])
    && forall k :: at < k < dot ==> !IsSpace(s[k])
  }

  /** `/\S+@\S+\.\S+/.test(s)`: the pattern occurs somewhere in `s`. */
  predicate EmailLooksValid(s: string) {
    exists at, dot | 0 <= at < dot < |s| :: EmailMatchAt(s, at, dot)
  }

  /** Text that passes the e-mail pattern is never blank, so the two e-mail
      messages can never both apply. */
  lemma EmailLooksValidNotBlank(s: string)
    requires EmailLooksValid(s)
    ensures Trim(s) != []
  {
    var at: int, dot: int :| 0 <= at < dot < |s| && EmailMatchAt(s, at, dot);
    assert EmailMatchAt(s, at, dot);
    TrimEmptyIffAllSpace(s);
  }

  lemma EmailExamplesValid()
    ensures EmailLooksValid("a@b.co")
    ensures EmailLooksValid("first last <ann@mail.example.org>")
  {
    assert EmailMatchAt("a@b.co", 1, 3);
    var s := "first last <ann@mail.example.org>";
    assert EmailMatchAt(s, 15, 20);
  }

  lemma EmailExamplesInvalid()
    ensures !EmailLooksValid("ann@example")
    ensures !EmailLooksValid("ann@ example.org")
  {
    var u := "ann@example";
    assert forall i | 0 <= i < |u| :: u[i] != '.';
    var w := "ann@ example.org";
    assert forall i | 0 <= i < |w| && i != 3 :: w[i] != '@';
    assert IsSpace(w[4]);
  }

  // ----------------------------------------------------------------- phone

  /** One position of the phone pattern. */
  datatype CharClass = Digit | Is(c: char) | Separator

  predicate IsSeparator(c: char) {
    c == '-' || c == '.' || c == ' '
  }

  predicate InClass(c: char, k: CharClass) {
    match k
    case Digit => IsDigit(c)
    case Is(d) => c == d
    case Separator => IsSeparator(c)
  }

  function Opt(present: bool, k: CharClass): seq<CharClass> {
    if present then [k] else []
  }

  function D3(): seq<CharClass> {
    [Digit, Digit, Digit]
  }

  function D4(): seq<CharClass> {
    [Digit, Digit, Digit, Digit]
  }

  /** The phone pattern with its four optional parts `\(?`, `\)?`, `[-. ]?`
      and `[-. ]?` fixed, written from the right: the subscriber part,
      the exchange part and the area part. */
  function LineTail(q: bool): seq<CharClass> {
    Opt(q, Separator) + D4()
  }

  function ExchangeTail(p: bool, q: bool): seq<CharClass> {
    Opt(p, Separator) + (D3() + LineTail(q))
  }

  function AreaTail(c: bool, p: bool, q: bool): seq<CharClass> {
    Opt(c, Is(')')) + ExchangeTail(p, q)
  }

  function PhoneTemplate(o: bool, c: bool, p: bool, q: bool): seq<CharClass> {
    Opt(o, Is('(')) + (D3() + AreaTail(c, p, q))
  }

  predicate Fits(s: string, t: seq<CharClass>) {
    |s| == |t| && forall i :: 0 <= i < |s| ==> InClass(s[i], t[i])
  }

  /** The language of the anchored phone pattern. */
  predicate PhoneShaped(s: string) {
    exists o: bool, c: bool, p: bool, q: bool :: Fits(s, PhoneTemplate(o, c, p, q))
  }

  /** Matching an optional part, then the rest. */
  lemma OptFits(s: string, present: bool, k: CharClass, rest: seq<CharClass>)
    ensures Fits(s, Opt(present, k) + rest) <==>
            if present then |s| > 0 && InClass(s[0], k) && Fits(s[1..], rest) else Fits(s, rest)
  {
    if present {
      if |s| > 0 {
        FitsAppend(s, [k], rest);
      }
    } else {
      assert Opt(present, k) + rest == rest;
    }
  }

  /** Matching a run of digits, then the rest. */
  lemma DigitsFits(s: string, d: seq<CharClass>, rest: seq<CharClass>)
    requires forall i :: 0 <= i < |d| ==> d[i] == Digit
    ensures Fits(s, d + rest) <==> |d| <= |s| && AllDigits(s[..|d|]) && Fits(s[|d|..], rest)
  {
    if |d| <= |s| {
      FitsAppend(s, d, rest);
    }
  }

  lemma FitsAppend(s: string, a: seq<CharClass>, b: seq<CharClass>)
    requires |a| <= |s|
    ensures Fits(s, a + b) <==> Fits(s[..|a|], a) && Fits(s[|a|..], b)
  {
    if Fits(s[..|a|], a) && Fits(s[|a|..], b) {
      forall i | 0 <= i < |s| ensures InClass(s[i], (a + b)[i]) {
        if i < |a| {
          assert s[..|a|][i] == s[i];
        } else {
          assert s[|a|..][i - |a|] == s[i];
        }
      }
    }
    if Fits(s, a + b) {
      forall i | 0 <= i < |a| ensures InClass(s[..|a|][i], a[i]) {
        assert (a + b)[i] == a[i];
      }
      forall i | 0 <= i < |b| ensures InClass(s[|a|..][i], b[i]) {
        assert (a + b)[|a| + i] == b[i];
      }
    }
  }

  /** Drops the first character when it belongs to class `k`: how the
      regular-expression engine takes an optional part. It never has to
      back up, because no optional part ever shares a character with what
      follows it (none of `(`, `)`, `-`, `.`, ` ` is a digit or `)`). */
  function Skip(s: string, k: CharClass): (r: string)
    ensures r == s || (|s| > 0 && InClass(s[0], k) && r == s[1..])
    ensures |s| > 0 && InClass(s[0], k) ==> r == s[1..]
  {
    if |s| > 0 && InClass(s[0], k) then s[1..] else s
  }

  /** `[-. ]?([0-9]{4})$` on what is left after the exchange digits. */
  function LineOk(s: string): (ok: bool)
    ensures ok <==> exists q: bool :: Fits(s, LineTail(q))
  {
    var r := Skip(s, Separator);
    var ok := |r| == 4 && AllDigits(r);
    LineStep(s, r, ok);
    ok
  }

  lemma LineStep(s: string, r: string, ok: bool)
    requires r == Skip(s, Separator)
    requires ok == (|r| == 4 && AllDigits(r))
    ensures ok <==> exists q: bool :: Fits(s, LineTail(q))
  {
    OptFits(s, true, Separator, D4());
    OptFits(s, false, Separator, D4());
    if ok {
      assert Fits(s, LineTail(r != s));
    }
    if exists q: bool :: Fits(s, LineTail(q)) {
      var q: bool :| Fits(s, LineTail(q));
      if !q {
        assert IsDigit(s[0]);
      }
      assert r == (if q then s[1..] else s);
    }
  }

  /** `[-. ]?([0-9]{3})` and the rest, after the area part. */
  function ExchangeOk(s: string): (ok: bool)
    ensures ok <==> exists p: bool, q: bool :: Fits(s, ExchangeTail(p, q))
  {
    var r := Skip(s, Separator);
    var ok := |r| >= 3 && AllDigits(r[..3]) && LineOk(r[3..]);
    ExchangeStep(s, r, ok);
    ok
  }

  lemma ExchangeStep(s: string, r: string, ok: bool)
    requires r == Skip(s, Separator)
    requires ok == (|r| >= 3 && AllDigits(r[..3]) && LineOk(r[3..]))
    ensures ok <==> exists p: bool, q: bool :: Fits(s, ExchangeTail(p, q))
  {
    if ok {
      var q: bool :| Fits(r[3..], LineTail(q));
      ExchangeFromWalk(s, r, q);
    }
    if exists p: bool, q: bool :: Fits(s, ExchangeTail(p, q)) {
      var p: bool, q: bool :| Fits(s, ExchangeTail(p, q));
      WalkFromExchange(s, r, p, q);
    }
  }

  lemma ExchangeFromWalk(s: string, r: string, q: bool)
    requires r == Skip(s, Separator)
    requires |r| >= 3 && AllDigits(r[..3]) && Fits(r[3..], LineTail(q))
    ensures Fits(s, ExchangeTail(r != s, q))
  {
    DigitsFits(r, D3(), LineTail(q));
    OptFits(s, r != s, Separator, D3() + LineTail(q));
  }

  lemma WalkFromExchange(s: string, r: string, p: bool, q: bool)
    requires r == Skip(s, Separator)
    requires Fits(s, ExchangeTail(p, q))
    ensures |r| >= 3 && AllDigits(r[..3]) && Fits(r[3..], LineTail(q))
  {
    OptFits(s, p, Separator, D3() + LineTail(q));
    if !p {
      DigitsFits(s, D3(), LineTail(q));
      assert IsDigit(s[..3][0]);
    }
    assert r == (if p then s[1..] else s);
    DigitsFits(r, D3(), LineTail(q));
  }



  /** `\)?` and the rest, after the area digits. */
  function AreaOk(s: string): (ok: bool)
    ensures ok <==> exists c: bool, p: bool, q: bool :: Fits(s, AreaTail(c, p, q))
  {
    var r := Skip(s, Is(')'));
    var ok := ExchangeOk(r);
    AreaStep(s, r, ok);
    ok
  }

  lemma AreaStep(s: string, r: string, ok: bool)
    requires r == Skip(s, Is(')'))
    requires ok <==> exists p: bool, q: bool :: Fits(r, ExchangeTail(p, q))
    ensures ok <==> exists c: bool, p: bool, q: bool :: Fits(s, AreaTail(c, p, q))
  {
    if ok {
      var p: bool, q: bool :| Fits(r, ExchangeTail(p, q));
      OptFits(s, r != s, Is(')'), ExchangeTail(p, q));
      assert Fits(s, AreaTail(r != s, p, q));
    }
    if exists c: bool, p: bool, q: bool :: Fits(s, AreaTail(c, p, q)) {
      var c: bool, p: bool, q: bool :| Fits(s, AreaTail(c, p, q));
      WalkFromArea(s, r, c, p, q);
    }
  }

  lemma WalkFromArea(s: string, r: string, c: bool, p: bool, q: bool)
    requires r == Skip(s, Is(')'))
    requires Fits(s, AreaTail(c, p, q))
    ensures Fits(r, ExchangeTail(p, q))
  {
    OptFits(s, c, Is(')'), ExchangeTail(p, q));
    if !c && |s| > 0 {
      ExchangeFirst(s, p, q);
    }
  }



  /** Text fitting the exchange part never starts with `)`. */
  lemma ExchangeFirst(s: string, p: bool, q: bool)
    requires Fits(s, ExchangeTail(p, q)) && |s| > 0
    ensures s[0] != ')'
  {
    OptFits(s, p, Separator, D3() + LineTail(q));
    if !p {
      DigitsFits(s, D3(), LineTail(q));
      assert IsDigit(s[..3][0]);
    }
  }

  /** The regular-expression engine's left-to-right walk over `s`:
      `\(?`, three digits, then the rest of the pattern. */
  function PhoneValid(s: string): (ok: bool)
    ensures ok <==> PhoneShaped(s)
  {
    var r := Skip(s, Is('('));
    var ok := |r| >= 3 && AllDigits(r[..3]) && AreaOk(r[3..]);
    PhoneStep(s, r, ok);
    ok
  }

  lemma PhoneStep(s: string, r: string, ok: bool)
    requires r == Skip(s, Is('('))
    requires ok == (|r| >= 3 && AllDigits(r[..3]) && AreaOk(r[3..]))
    ensures ok <==> PhoneShaped(s)
  {
    if ok {
      var c: bool, p: bool, q: bool :| Fits(r[3..], AreaTail(c, p, q));
      ShapedFromWalk(s, r, c, p, q);
    }
    if PhoneShaped(s) {
      var o: bool, c: bool, p: bool, q: bool :| Fits(s, PhoneTemplate(o, c, p, q));
      WalkFromShape(s, r, o, c, p, q);
    }
  }

  /** A walk that succeeds spells out a fitting template. */
  lemma ShapedFromWalk(s: string, r: string, c: bool, p: bool, q: bool)
    requires r == Skip(s, Is('('))
    requires |r| >= 3 && AllDigits(r[..3]) && Fits(r[3..], AreaTail(c, p, q))
    ensures PhoneShaped(s)
  {
    DigitsFits(r, D3(), AreaTail(c, p, q));
    OptFits(s, r != s, Is('('), D3() + AreaTail(c, p, q));
    assert Fits(s, PhoneTemplate(r != s, c, p, q));
  }

  /** Text fitting a template is walked through to its area part. */
  lemma WalkFromShape(s: string, r: string, o: bool, c: bool, p: bool, q: bool)
    requires r == Skip(s, Is('('))
    requires Fits(s, PhoneTemplate(o, c, p, q))
    ensures |r| >= 3 && AllDigits(r[..3]) && Fits(r[3..], AreaTail(c, p, q))
  {
    OptFits(s, o, Is('('), D3() + AreaTail(c, p, q));
    if !o {
      DigitsFits(s, D3(), AreaTail(c, p, q));
      assert IsDigit(s[..3][0]);
    }
    assert r == (if o then s[1..] else s);
    DigitsFits(r, D3(), AreaTail(c, p, q));
  }



  lemma PhoneExampleParenthesised()
    ensures PhoneValid("(123) 456-7890")
  {
  }

  lemma PhoneExampleBare()
    ensures PhoneValid("1234567890")
  {
  }

  lemma PhoneExampleDotted()
    ensures PhoneValid("123.456.7890")
  {
  }

  lemma PhoneExampleBlank()
    ensures !PhoneValid(" ")
  {
  }

  lemma PhoneExampleMisgrouped()
    ensures !PhoneValid("123-45-67890")
  {
  }

  // ------------------------------------------------------------ error maps

  /** `if (cond) newErrors[key] = message`: one conditional assignment.
      The key is present afterwards when a message was assigned or it was
      there before; it holds the new message, or else its old one; every
      other key keeps its presence and its message. */
  function SetIf<K>(m: map<K, Message>, key: K, err: Option<Message>): (r: map<K, Message>)
    ensures key in r <==> err.Some? || key in m
    ensures err.Some? ==> r[key] == err.value
    ensures err.None? && key in m ==> r[key] == m[key]
    ensures r - {key} == m - {key}
  {
    if err.Some? then m[key := err.value] else m
  }

  /** A second assignment to a key overwrites the first. */
  lemma UpdateTwice<K>(m: map<K, Message>, key: K, a: Message, b: Message)
    ensures m[key := a][key := b] == m[key := b]
  {
  }

  /** `if (!s.trim()) ... = 'Name is required'`. */
  function NameError(name: string): Option<Message> {
    if Trim(name) == [] then Some(NameRequired) else None
  }

  /** The e-mail branch: the blank check first, the pattern only otherwise. */
  function EmailError(email: string): Option<Message> {
    if Trim(email) == [] then Some(EmailRequired)
    else if !EmailLooksValid(email) then Some(EmailInvalid)
    else None
  }

  /** The name rule: exactly the one message, and only for blank names. */
  lemma NameRule(name: string)
    ensures NameError(name) == Some(NameRequired) <==> AllSpace(name)
    ensures NameError(name) == None <==> !AllSpace(name)
  {
    TrimEmptyIffAllSpace(name);
  }

  /** The e-mail rule: blank text gets the required message, other text
      the invalid message exactly when the pattern does not occur in it;
      text with an error gets exactly one of the two messages. */
  lemma EmailRule(email: string)
    ensures AllSpace(email) ==> EmailError(email) == Some(EmailRequired)
    ensures !AllSpace(email) ==> (EmailError(email) == Some(EmailInvalid) <==> !EmailLooksValid(email))
    ensures EmailError(email) == None <==> EmailLooksValid(email)
    ensures EmailError(email).Some? ==> EmailError(email).value in {EmailRequired, EmailInvalid}
  {
    TrimEmptyIffAllSpace(email);
    if EmailLooksValid(email) {
      EmailLooksValidNotBlank(email);
    }
  }

  /** The first two checks both forms make, recorded under the keys the
      form uses for its name and e-mail inputs. */
  function NameEmailErrors<K>(nameKey: K, emailKey: K, name: string, email: string): (r: map<K, Message>)
    requires nameKey != emailKey
    ensures r.Keys <= {nameKey, emailKey}
  {
    SetIf(SetIf(map[], nameKey, NameError(name)), emailKey, EmailError(email))
  }

  /** The opening statements of both forms' `validateForm`: the name check,
      then the e-mail check, each assigning its message into a fresh map. */
  method CheckNameEmail<K>(nameKey: K, emailKey: K, name: string, email: string) returns (newErrors: map<K, Message>)
    requires nameKey != emailKey
    ensures newErrors == NameEmailErrors(nameKey, emailKey, name, email)
  {
    newErrors := map[];
    if Trim(name) == [] {
      newErrors := newErrors[nameKey := NameRequired];
    }
    if Trim(email) == [] {
      newErrors := newErrors[emailKey := EmailRequired];
    } else if !EmailLooksValid(email) {
      newErrors := newErrors[emailKey := EmailInvalid];
    }
  }

  /** Each key is present exactly when its rule fails, with that rule's
      message. */
  lemma NameEmailRules<K>(nameKey: K, emailKey: K, name: string, email: string)
    requires nameKey != emailKey
    ensures var r := NameEmailErrors(nameKey, emailKey, name, email);
      && (nameKey in r <==> AllSpace(name))
      && (nameKey in r ==> r[nameKey] == NameRequired)
      && (emailKey in r <==> !EmailLooksValid(email))
      && (emailKey in r ==> r[emailKey] == (if AllSpace(email) then EmailRequired else EmailInvalid))
  {
    NameRule(name);
    EmailRule(email);
  }

  /** The two checks record nothing under any other key. */
  lemma NameEmailOther<K>(nameKey: K, emailKey: K, name: string, email: string, k: K)
    requires nameKey != emailKey && k != nameKey && k != emailKey
    ensures k !in NameEmailErrors(nameKey, emailKey, name, email)
  {
    var m := SetIf(map[], nameKey, NameError(name));
  }

  /** `if (errors[name]) setErrors({...errors, [name]: ''})`: a field that
      shows a message has it replaced by the empty one as soon as the field
      is edited; its key stays and every other entry is kept. */
  function ClearError<K>(errors: map<K, Message>, name: K): (r: map<K, Message>)
    ensures r.Keys == errors.Keys
    ensures forall k :: k in r && k != name ==> r[k] == errors[k]
    ensures name in r ==> r[name] == Cleared
  {
    if name in errors && MessageText(errors[name]) != "" then errors[name := Cleared] else errors
  }
}
