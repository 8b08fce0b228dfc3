/** The React contact form (src/components/contact/ContactForm.tsx): the
    react-hook-form rules of its fields, the submission status it keeps, and
    the e-mail it builds for the mail API. */
module ContactForm {
  import opened Text
  import opened EmailPattern
  import ContactPage

  type FormData = ContactPage.FormData
  type Field = ContactPage.Field

  const MinName := 2
  const MinMessage := 10

  /** `required: true, minLength: 2` on the raw value: no trimming, so a name
      of two spaces passes. */
  predicate NameRule(name: string)
  {
    name != "" && |name| >= MinName
  }

  /** `required: true` and the shared address pattern. */
  predicate EmailRule(email: string)
  {
    email != "" && ValidEmail(email)
  }

  /** `required: true, minLength: 10` on the raw value. */
  predicate MessageRule(message: string)
  {
    message != "" && |message| >= MinMessage
  }

  /** The fields react-hook-form flags; the phone field has no rule. */
  function RuleErrors(d: FormData): (failed: set<Field>)
  {
    ContactPage.Failed(NameRule(d.name), EmailRule(d.email), MessageRule(d.message))
  }

  /** `onSubmit` runs exactly when no rule fails, and the phone never matters. */
  lemma RuleErrorsExact(d: FormData, phone: string)
    ensures ContactPage.Name in RuleErrors(d) <==> |d.name| < MinName
    ensures ContactPage.Email in RuleErrors(d) <==> !ValidEmail(d.email)
    ensures ContactPage.Message in RuleErrors(d) <==> |d.message| < MinMessage
    ensures RuleErrors(d.(phone := phone)) == RuleErrors(d)
  {
    var e := d.(phone := phone);
    assert e.name == d.name && e.email == d.email && e.message == d.message;
    assert !ValidEmail("");
  }

  /** Whatever the static page accepts, this form accepts too: trimming can
      only shorten a value. */
  lemma {:induction false} PageAcceptedIsAccepted(d: FormData)
    requires ContactPage.Sendable(d)
    ensures RuleErrors(d) == {}
  {
    assert |Trim(d.name)| <= |d.name|;
    assert |Trim(d.message)| <= |d.message|;
  }

  /** The converse fails: a name of two spaces passes here and not on the page. */
  lemma {:induction false} BlankNameAcceptedHereOnly()
    ensures NameRule("  ")
    ensures !ContactPage.NameValid("  ")
  {
    ContactPage.BlankFails("  ");
  }

  /** `submitStatus`. */
  datatype Status = Idle | Success | Error

  /** How the request went: a failure thrown by `fetch` or by the parsing of
      its answer, or an answer with its `ok` flag and the `id` and `message`
      of its JSON body ("" when absent). */
  datatype Fetched = Threw | Responded(ok: bool, id: string, message: string)

  /** Where the handler ends: the mail was accepted, the API refused it with
      the message to show ("" when it gave none), or the handler threw. */
  datatype Settled = Delivered | Refused(message: string) | Unreachable

  /** A missing API key throws inside the `try` before any request, so it
      ends like a network failure; success needs both `ok` and an `id`. */
  function Settle(apiKey: string, fetched: Fetched): (r: Settled)
  {
    if apiKey == "" then Unreachable
    else match fetched
      case Threw => Unreachable
      case Responded(ok, id, message) =>
        if ok && id != "" then Delivered else Refused(message)
  }

  lemma SettleCases(apiKey: string, fetched: Fetched)
    ensures Settle(apiKey, fetched) == Delivered <==>
              apiKey != "" && fetched.Responded? && fetched.ok && fetched.id != ""
    ensures Settle(apiKey, fetched) == Unreachable <==> apiKey == "" || fetched.Threw?
    ensures apiKey != "" && fetched.Responded? && !fetched.ok ==>
              Settle(apiKey, fetched) == Refused(fetched.message)
    ensures apiKey != "" && fetched.Responded? && fetched.id == "" ==>
              Settle(apiKey, fetched) == Refused(fetched.message)
  {
  }

  /** The translation keys of the two fixed error texts. */
  const ErrorKey := "contact.form.error"
  const ConnectionErrorKey := "contact.form.connectionError"

  /** The component's state: the field values react-hook-form holds, and the
      three pieces of React state. */
  class Form {
    var values: FormData
    var isSubmitting: bool
    var status: Status
    var errorMessage: string

    constructor ()
      ensures values == ContactPage.EmptyForm
      ensures !isSubmitting && status == Idle && errorMessage == ""
    {
      values := ContactPage.EmptyForm;
      isSubmitting := false;
      status := Idle;
      errorMessage := "";
    }

    /** The start of `onSubmit`: busy, and any earlier outcome cleared. */
    method Begin()
      modifies this`isSubmitting, this`status
      ensures isSubmitting && status == Idle
    {
      isSubmitting := true;
      status := Idle;
    }

    /** The rest of `onSubmit` once the request has settled: the status and
      message for the outcome, `reset()` on success only, and never busy
      afterwards. `t` is the translation function. */
    method Finish(apiKey: string, fetched: Fetched, t: string -> string)
      modifies this
      ensures !isSubmitting
      ensures status == Success <==> Settle(apiKey, fetched) == Delivered
      ensures status != Idle
      ensures values == if status == Success then ContactPage.EmptyForm else old(values)
      ensures status == Success ==> errorMessage == old(errorMessage)
      ensures Settle(apiKey, fetched) == Unreachable ==> errorMessage == t(ConnectionErrorKey)
      ensures Settle(apiKey, fetched).Refused? ==>
                errorMessage == (if fetched.message != "" then fetched.message else t(ErrorKey))
    {
      if apiKey == "" {
        status := Error;
        errorMessage := t(ConnectionErrorKey);
      } else {
        match fetched {
          case Threw =>
            status := Error;
            errorMessage := t(ConnectionErrorKey);
          case Responded(ok, id, message) =>
            if ok && id != "" {
              status := Success;
              values := ContactPage.EmptyForm;
            } else {
              status := Error;
              errorMessage := if message != "" then message else t(ErrorKey);
            }
        }
      }
      isSubmitting := false;
    }

    /** `handleSubmit(onSubmit)`: with a rule failing nothing runs and the
      flagged fields are returned; otherwise the whole handler runs. */
    method Submit(apiKey: string, fetched: Fetched, t: string -> string) returns (failed: set<Field>)
      modifies this
      ensures failed == RuleErrors(old(values))
      ensures failed != {} ==> values == old(values) && status == old(status)
      ensures failed != {} ==> errorMessage == old(errorMessage) && isSubmitting == old(isSubmitting)
      ensures failed == {} ==> !isSubmitting
      ensures failed == {} ==> (status == Success <==> Settle(apiKey, fetched) == Delivered)
      ensures failed == {} ==> status != Idle
      ensures failed == {} ==> values == if status == Success then ContactPage.EmptyForm else old(values)
      ensures failed == {} && Settle(apiKey, fetched) == Unreachable ==> errorMessage == t(ConnectionErrorKey)
      ensures failed == {} && Settle(apiKey, fetched).Refused? ==>
                errorMessage == (if fetched.message != "" then fetched.message else t(ErrorKey))
    {
      failed := RuleErrors(values);
      if failed != {} {
        return;
      }
      Begin();
      Finish(apiKey, fetched, t);
    }
  }

  /** The phone line of the e-mail: `data.phone || "Not provided"`. */
  const NotProvided := "Not provided"

  function PhoneText(phone: string): (r: string)
    ensures r != ""
    ensures phone != "" ==> r == phone
  {
    if phone != "" then phone else NotProvided
  }

  /** `message.replace(/\n/g, "<br>")`: every line feed of the message becomes
      a `<br>` in the HTML body. */
  function BreakLines(m: string): (h: string)
    ensures '\n' !in h
    ensures |h| >= |m|
  {
    if m == [] then []
    else (if m[0] == '\n' then "<br>" else [m[0]]) + BreakLines(m[1..])
  }

  /** Replacing works piece by piece. */
  lemma {:induction false} BreakLinesAppend(a: string, b: string)
    ensures BreakLines(a + b) == BreakLines(a) + BreakLines(b)
  {
    if a == [] {
      assert a + b == b;
    } else {
      assert (a + b)[0] == a[0];
      assert (a + b)[1..] == a[1..] + b;
      BreakLinesAppend(a[1..], b);
    }
  }

  /** A message without line feeds is sent unchanged. */
  lemma {:induction false} BreakLinesIdentity(m: string)
    requires '\n' !in m
    ensures BreakLines(m) == m
  {
    if m != [] {
      assert '\n' !in m[1..];
      BreakLinesIdentity(m[1..]);
    }
  }

  /** Reading `<br>` back as a line feed. */
  function JoinLines(h: string): (m: string)
    decreases |h|
  {
    if h == [] then []
    else if |h| >= 4 && h[..4] == "<br>" then "\n" + JoinLines(h[4..])
    else [h[0]] + JoinLines(h[1..])
  }

  /** For a message with no '<' the replacement loses nothing. */
  lemma {:induction false} BreakLinesRoundTrip(m: string)
    requires '<' !in m
    ensures JoinLines(BreakLines(m)) == m
  {
    if m != [] {
      assert '<' !in m[1..];
      BreakLinesRoundTrip(m[1..]);
      var rest := BreakLines(m[1..]);
      if m[0] == '\n' {
        assert ("<br>" + rest)[..4] == "<br>" && ("<br>" + rest)[4..] == rest;
      } else {
        var h := [m[0]] + rest;
        assert h[0] == m[0] && h[1..] == rest;
        if |h| >= 4 {
          assert h[..4] != "<br>" by {
            assert h[..4][0] == m[0] != '<';
          }
        }
      }
    }
  }

  /** A message that already contains `<br>` reads the same as one with a
      line feed there. */
  lemma {:induction false} BreakLinesNotInjective()
    ensures BreakLines("<br>") == BreakLines("\n")
  {
    assert BreakLines("") == "";
    assert BreakLines("\n") == "<br>";
    assert "<br>"[1..] == "br>";
    assert "br>"[1..] == "r>";
    assert "r>"[1..] == ">";
    assert ">"[1..] == "";
  }

  /** The parts of the e-mail that depend on the form. */
  datatype Mail = Mail(subject: string, name: string, email: string, phone: string,
                       htmlMessage: string, textMessage: string)

  const SubjectPrefix := "New Contact Form Submission from "

  function MailFor(d: FormData): (m: Mail)
  {
    Mail(SubjectPrefix + d.name, d.name, d.email, PhoneText(d.phone), BreakLines(d.message), d.message)
  }

  /** The subject names the sender, the phone line is never blank, the HTML
      body has no raw line feed, and the plain-text body carries the message
      as typed. */
  lemma MailContents(d: FormData)
    ensures StartsWith(MailFor(d).subject, SubjectPrefix)
    ensures MailFor(d).subject[|SubjectPrefix|..] == d.name
    ensures MailFor(d).phone != ""
    ensures d.phone == "" ==> MailFor(d).phone == NotProvided
    ensures '\n' !in MailFor(d).htmlMessage
    ensures MailFor(d).textMessage == d.message
  {
    assert (SubjectPrefix + d.name)[..|SubjectPrefix|] == SubjectPrefix;
  }
}
