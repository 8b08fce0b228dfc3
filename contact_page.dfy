/** The submit handler of the static contact page (contact.js): validation of
    the three checked fields, the loading state of the submit button, and the
    banner shown for the server's answer. */
module ContactPage {
  import opened Text
  import opened EmailPattern

  /** What the form holds when it is submitted. */
  datatype FormData = FormData(name: string, email: string, phone: string, message: string)

  /** What `form.reset()` restores: every field empty. */
  const EmptyForm := FormData("", "", "", "")

  /** The three fields that have an error line under them. */
  datatype Field = Name | Email | Message

  const NameError := "نام باید حداقل 2 کاراکتر باشد"
  const EmailError := "لطفاً یک ایمیل معتبر وارد کنید"
  const MessageError := "پیام باید حداقل 10 کاراکتر باشد"
  /** Shown when the server answers without success and without a message. */
  const DefaultError := "خطایی در ارسال پیام رخ داد"
  /** Shown when the request or the parsing of its answer throws. */
  const ConnectionError := "خطا در اتصال به سرور. لطفاً دوباره تلاش کنید."

  const MinName := 2
  const MinMessage := 10

  /** The name check: at least two characters once trimmed. An empty name is
      also caught by the explicit emptiness test, which the length test covers. */
  predicate NameValid(name: string)
  {
    |Trim(name)| >= MinName
  }

  predicate MessageValid(message: string)
  {
    |Trim(message)| >= MinMessage
  }

  /** The text of each field's error line. */
  function ErrorText(f: Field): string
  {
    match f
    case Name => NameError
    case Email => EmailError
    case Message => MessageError
  }

  /** The fields whose error line the handler shows; the lines of the other
      fields stay hidden and empty. */
  function FailedFields(d: FormData): (failed: set<Field>)
  {
    Failed(NameValid(d.name), ValidEmail(d.email), MessageValid(d.message))
  }

  /** The fields to flag, given the verdict of each check. */
  function Failed(nameOk: bool, emailOk: bool, messageOk: bool): (failed: set<Field>)
    ensures Name in failed <==> !nameOk
    ensures Email in failed <==> !emailOk
    ensures Message in failed <==> !messageOk
    ensures failed == {} <==> nameOk && emailOk && messageOk
  {
    (if nameOk then {} else {Name})
    + (if emailOk then {} else {Email})
    + (if messageOk then {} else {Message})
  }

  /** The request goes out exactly when no field failed. */
  predicate Sendable(d: FormData)
  {
    NameValid(d.name) && ValidEmail(d.email) && MessageValid(d.message)
  }

  /** Each field shows its own error exactly when its check fails, every
      failing field shows one (the checks do not stop at the first failure),
      and the request is sent exactly when no error is shown. */
  lemma FailedFieldsExact(d: FormData)
    ensures Name in FailedFields(d) <==> !NameValid(d.name)
    ensures Email in FailedFields(d) <==> !ValidEmail(d.email)
    ensures Message in FailedFields(d) <==> !MessageValid(d.message)
    ensures FailedFields(d) == {} <==> Sendable(d)
  {
  }

  /** The phone number is never checked. */
  lemma PhoneIgnored(d: FormData, phone: string)
    ensures FailedFields(d.(phone := phone)) == FailedFields(d)
    ensures Sendable(d.(phone := phone)) == Sendable(d)
  {
    var e := d.(phone := phone);
    assert e.name == d.name && e.email == d.email && e.message == d.message;
  }

  /** White space around a name or a message does not count towards its
      length: padding on the left never changes the verdict. */
  lemma {:induction false} PaddingDoesNotCount(d: FormData, pad: string)
    requires forall k :: 0 <= k < |pad| ==> IsSpace(pad[k])
    ensures NameValid(pad + d.name) == NameValid(d.name)
    ensures MessageValid(pad + d.message) == MessageValid(d.message)
  {
    TrimSkipsLeadingSpace(pad, d.name);
    TrimSkipsLeadingSpace(pad, d.message);
  }

  /** A name or message made only of white space never passes. */
  lemma {:induction false} BlankFails(s: string)
    requires forall k :: 0 <= k < |s| ==> IsSpace(s[k])
    ensures !NameValid(s) && !MessageValid(s)
  {
    TrimSkipsLeadingSpace(s, "");
    assert s + "" == s;
    assert Trim("") == "";
  }

  /** What the server or the network gave back: a parsed JSON answer
      (`message` is "" when absent), or a thrown failure. */
  datatype Outcome = Replied(success: bool, message: string) | Threw

  /** The banner that the outcome leaves visible. */
  datatype Banner = SuccessBanner | ErrorBanner(text: string)

  /** Success only for an answer that says so; otherwise the server's message,
      falling back to the default, and the connection text after a throw. */
  function BannerFor(o: Outcome): (b: Banner)
  {
    match o
    case Replied(success, message) =>
      if success then SuccessBanner
      else ErrorBanner(if message != "" then message else DefaultError)
    case Threw => ErrorBanner(ConnectionError)
  }

  /** The banner's meaning, case by case: success exactly for a successful
      answer, and an error text that is never empty. */
  lemma BannerCases(o: Outcome)
    ensures BannerFor(o).SuccessBanner? <==> o.Replied? && o.success
    ensures o.Replied? && !o.success && o.message != "" ==> BannerFor(o) == ErrorBanner(o.message)
    ensures o.Replied? && !o.success && o.message == "" ==> BannerFor(o) == ErrorBanner(DefaultError)
    ensures o.Threw? ==> BannerFor(o) == ErrorBanner(ConnectionError)
    ensures BannerFor(o).ErrorBanner? ==> BannerFor(o).text != ""
  {
  }

  /** The page around the form: field values, field error lines, the banner
      area, and the submit button. */
  class Page {
    var values: FormData
    /** The fields whose error line is visible, each showing `ErrorText`. */
    var fieldErrors: set<Field>
    var formMessageHidden: bool
    var successHidden: bool
    var errorHidden: bool
    var errorText: string
    var submitDisabled: bool
    /** The spinner is shown and the button label hidden while this is true. */
    var loading: bool

    /** At most one banner is visible, and only inside the visible message area;
        the spinner shows exactly while the button is disabled. */
    ghost predicate Valid()
      reads this
    {
      && (formMessageHidden ==> successHidden && errorHidden)
      && (successHidden || errorHidden)
      && loading == submitDisabled
    }

    constructor (values: FormData)
      ensures Valid()
      ensures this.values == values && fieldErrors == {}
      ensures formMessageHidden && successHidden && errorHidden
      ensures !submitDisabled && !loading
    {
      this.values := values;
      fieldErrors := {};
      formMessageHidden, successHidden, errorHidden := true, true, true;
      errorText := "";
      submitDisabled, loading := false, false;
    }

    /** The synchronous part of the submit handler: hide the old banners,
        clear the old field errors, run all three checks, and either stop or
        enter the loading state. `sending` says whether the request goes out. */
    method Submit() returns (sending: bool)
      requires Valid()
      modifies this
      ensures Valid()
      ensures values == old(values) && errorText == old(errorText)
      ensures fieldErrors == FailedFields(values)
      ensures formMessageHidden && successHidden && errorHidden
      ensures sending <==> Sendable(values)
      ensures sending ==> submitDisabled && loading
      ensures !sending ==> submitDisabled == old(submitDisabled) && loading == old(loading)
    {
      formMessageHidden, successHidden, errorHidden := true, true, true;
      fieldErrors := {};
      var isValid := true;
      var nameOk, emailOk, messageOk := NameValid(values.name), ValidEmail(values.email), MessageValid(values.message);
      if !nameOk {
        fieldErrors := fieldErrors + {Name};
        isValid := false;
      }
      if !emailOk {
        fieldErrors := fieldErrors + {Email};
        isValid := false;
      }
      if !messageOk {
        fieldErrors := fieldErrors + {Message};
        isValid := false;
      }
      assert fieldErrors == Failed(nameOk, emailOk, messageOk);
      if !isValid {
        return false;
      }
      submitDisabled := true;
      loading := true;
      return true;
    }

    /** The asynchronous part, once the request has settled: show one banner,
        reset the form on success only, and leave the loading state whatever
        happened. */
    method Complete(o: Outcome)
      requires Valid()
      modifies this
      ensures Valid()
      ensures !formMessageHidden
      ensures BannerFor(o) == SuccessBanner ==> !successHidden && errorHidden && errorText == old(errorText)
      ensures BannerFor(o).ErrorBanner? ==> successHidden && !errorHidden && errorText == BannerFor(o).text
      ensures values == (if BannerFor(o) == SuccessBanner then EmptyForm else old(values))
      ensures fieldErrors == old(fieldErrors)
      ensures !submitDisabled && !loading
    {
      match o {
        case Replied(success, message) =>
          if success {
            formMessageHidden, successHidden := false, false;
            errorHidden := true;
            values := EmptyForm;
          } else {
            formMessageHidden, errorHidden := false, false;
            successHidden := true;
            errorText := if message != "" then message else DefaultError;
          }
        case Threw =>
          formMessageHidden, errorHidden := false, false;
          successHidden := true;
          errorText := ConnectionError;
      }
      submitDisabled := false;
      loading := false;
    }
  }

  /** A whole submission: a form that fails a check sends nothing and leaves
      the button enabled; one that passes ends with exactly one banner and an
      enabled button, and keeps its values unless the answer was a success. */
  method SubmitAndComplete(p: Page, o: Outcome) returns (sent: bool)
    requires p.Valid() && !p.submitDisabled
    modifies p
    ensures p.Valid() && !p.submitDisabled
    ensures sent <==> Sendable(old(p.values))
    ensures !sent ==> p.formMessageHidden && p.values == old(p.values)
    ensures sent ==> !p.formMessageHidden && (p.successHidden != p.errorHidden)
    ensures sent ==> (p.values == EmptyForm <==> BannerFor(o) == SuccessBanner)
  {
    sent := p.Submit();
    if sent {
      p.Complete(o);
    }
  }
}
