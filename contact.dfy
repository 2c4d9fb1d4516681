/**
  The contact page: the field rules a submission must pass, and what a submission does
  to the page's `submitted` and `error` state, in demo mode (the endpoint still holds the
  placeholder form id) and against a real endpoint.
 */
module Contact {
  import opened Strings
  import opened Optional
  import opened Brand

  datatype ContactForm = ContactForm(
    name: string,
    email: string,
    company: string,
    role: string,
    companySize: string,
    interest: string,
    message: string)

  datatype Field = Name | Email | Company | Role | CompanySize | Interest | Message

  /** The fields in the order of the schema, which is the order issues are reported in. */
  const Fields: seq<Field> := [Name, Email, Company, Role, CompanySize, Interest, Message]

  lemma EveryFieldListed()
    ensures forall f :: f in Fields
  {
    forall f
      ensures f in Fields
    {
      match f
      case Name => assert Fields[0] == f;
      case Email => assert Fields[1] == f;
      case Company => assert Fields[2] == f;
      case Role => assert Fields[3] == f;
      case CompanySize => assert Fields[4] == f;
      case Interest => assert Fields[5] == f;
      case Message => assert Fields[6] == f;
    }
  }

  datatype Issue = Issue(field: Field, message: string)

  function Value(form: ContactForm, f: Field): string {
    match f
    case Name => form.name
    case Email => form.email
    case Company => form.company
    case Role => form.role
    case CompanySize => form.companySize
    case Interest => form.interest
    case Message => form.message
  }

  /** The least length of a field with a length rule; the e-mail field has a format rule. */
  function MinLength(f: Field): nat {
    match f
    case Name => 2
    case Message => 10
    case _ => 1
  }

  /** The message shown under a field that fails its rule. */
  function ErrorMessage(f: Field): string {
    match f
    case Name => "Name must be at least 2 characters"
    case Email => "Please enter a valid email address"
    case Company => "Company name is required"
    case Role => "Your role is required"
    case CompanySize => "Please select company size"
    case Interest => "Please select an area of interest"
    case Message => "Please share a bit more about your needs (10+ characters)"
  }

  /** Whether field `f` fails its rule; `emailOk` is the verdict of the e-mail format check. */
  predicate Fails(form: ContactForm, f: Field, emailOk: bool) {
    if f == Email then !emailOk else |Value(form, f)| < MinLength(f)
  }

  /** The issues of the fields in `fs` that fail, in order. */
  function IssuesOf(form: ContactForm, fs: seq<Field>, emailOk: bool): (r: seq<Issue>)
    ensures forall issue :: issue in r ==> issue.field in fs && Fails(form, issue.field, emailOk) && issue.message == ErrorMessage(issue.field)
    ensures forall f :: f in fs && Fails(form, f, emailOk) ==> Issue(f, ErrorMessage(f)) in r
    decreases |fs|
  {
    if fs == [] then []
    else
      var rest := IssuesOf(form, fs[1..], emailOk);
      assert forall f :: f in fs[1..] ==> f in fs;
      (if Fails(form, fs[0], emailOk) then [Issue(fs[0], ErrorMessage(fs[0]))] else []) + rest
  }

  /** `contactSchema`: the issues reported are exactly those of the failing fields, each with
      its field's message. */
  function Validate(form: ContactForm, emailOk: bool): (issues: seq<Issue>)
    ensures forall f :: Fails(form, f, emailOk) <==> Issue(f, ErrorMessage(f)) in issues
    ensures forall issue :: issue in issues ==> issue.message == ErrorMessage(issue.field)
  {
    var r := IssuesOf(form, Fields, emailOk);
    EveryFieldListed();
    r
  }

  /** The rules in their own words: a form passes exactly when the name has at least two
      characters, the e-mail is well formed, company, role, company size and interest are
      not empty, and the message has at least ten characters. */
  lemma ValidExactly(form: ContactForm, emailOk: bool)
    ensures Validate(form, emailOk) == [] <==>
      && |form.name| >= 2
      && emailOk
      && form.company != ""
      && form.role != ""
      && form.companySize != ""
      && form.interest != ""
      && |form.message| >= 10
  {
    var issues := Validate(form, emailOk);
    if issues != [] {
      assert issues[0] in issues;
      assert Fails(form, issues[0].field, emailOk);
    } else {
      forall f
        ensures !Fails(form, f, emailOk)
      {
        assert Issue(f, ErrorMessage(f)) !in issues;
      }
      assert !Fails(form, Name, emailOk) && !Fails(form, Message, emailOk);
      assert !Fails(form, Company, emailOk) && !Fails(form, Role, emailOk);
      assert !Fails(form, CompanySize, emailOk) && !Fails(form, Interest, emailOk);
    }
  }

  // ---------------------------------------------------------------- submission

  /** What the network gives back for the POST: a response with its status, or a failure
      that makes `fetch` throw. */
  datatype Response = Status(code: int) | NetworkError

  /** `res.ok`: a status in the 2xx range. */
  predicate IsOk(r: Response) {
    r.Status? && 200 <= r.code <= 299
  }

  const Placeholder: string := "[[FORM_ID]]"

  const FailureMessage: string := "Something went wrong. Please try again or email us directly."

  /** Demo mode: the endpoint still contains the placeholder form id. */
  predicate IsDemo(endpoint: string) {
    Contains(endpoint, Placeholder)
  }

  /** Without a configured endpoint the page runs in demo mode. */
  lemma DefaultEndpointIsDemo(env: Option<string>)
    requires env.None? || env.value == ""
    ensures IsDemo(Setting(env, DefaultFormEndpoint))
  {
    assert DefaultFormEndpoint[23..34] == Placeholder;
    ContainsAt(DefaultFormEndpoint, Placeholder, 23);
  }

  class ContactPage {
    var submitted: bool
    var error: string

    /** The page as first shown: the form, and no error. */
    constructor ()
      ensures !submitted && error == ""
    {
      submitted := false;
      error := "";
    }

    /** Pressing send on the form, which is shown only while nothing has been submitted. A
        form that fails validation changes nothing and sends nothing. Otherwise the error is
        cleared first; in demo mode the form counts as submitted without a request; against a
        real endpoint a 2xx response marks it submitted, and any other response or a network
        failure shows the failure message and leaves it unsubmitted. `requestSent` says
        whether a request went out. */
    method Submit(form: ContactForm, emailOk: bool, endpoint: string, response: Response)
        returns (requestSent: bool)
      requires !submitted
      modifies this
      ensures Validate(form, emailOk) != [] ==> !requestSent && submitted == old(submitted) && error == old(error)
      ensures Validate(form, emailOk) == [] ==> requestSent == !IsDemo(endpoint)
      ensures Validate(form, emailOk) == [] ==>
        submitted == (IsDemo(endpoint) || IsOk(response)) &&
        error == (if submitted then "" else FailureMessage)
    {
      requestSent := false;
      if Validate(form, emailOk) != [] {
        return;
      }
      error := "";
      if Contains(endpoint, Placeholder) {
        submitted := true;
        return;
      }
      requestSent := true;
      if response.Status? && 200 <= response.code <= 299 {
        submitted := true;
      } else {
        error := FailureMessage;
      }
    }
  }

  /** Once the form has gone through nothing can be submitted again, and while it has not
      every attempt ends with either `submitted` or the failure message, never both. */
  method RetryAfterFailure(form: ContactForm, endpoint: string, first: Response, second: Response)
    returns (page: ContactPage)
    requires Validate(form, true) == []
    ensures page.submitted <==> IsDemo(endpoint) || IsOk(first) || IsOk(second)
    ensures page.submitted == (page.error == "")
  {
    page := new ContactPage();
    var sent := page.Submit(form, true, endpoint, first);
    if !page.submitted {
      sent := page.Submit(form, true, endpoint, second);
    }
  }
}
