/** The `App` component's state and handlers (App.js:6-143): the form data,
    the validation errors, submission, reset and the input-change handler.
    The POST that `sendPostRequest` makes is recorded as an entry of a
    request log instead of being sent. */
module Form {
  import opened Patterns
  import opened Fields
  import opened Validator
  import opened Endpoint

  /** The object `formDataWithoutCertificateType` (App.js:44): the form
      data less its certificate type, sent as the request body. */
  datatype Payload = Payload(
    commonName: string,
    organization: string,
    organizationalUnit: string,
    country: string,
    state: string,
    locality: string,
    emailAddress: string)

  /** One POST to the issuance service: the URL and the object whose JSON
      text is the body. */
  datatype Request = Request(url: string, payload: Payload)

  /** Reading a property of the body; a property it lacks reads as
      `undefined`, here `None`. */
  function Lookup(payload: Payload, key: Key): Option<string> {
    match key
    case CommonName => Some(payload.commonName)
    case Organization => Some(payload.organization)
    case OrganizationalUnit => Some(payload.organizationalUnit)
    case Country => Some(payload.country)
    case State => Some(payload.state)
    case Locality => Some(payload.locality)
    case EmailAddress => Some(payload.emailAddress)
    case CertificateType => None
  }

  /** `const { certificateType, ...rest } = formData` (App.js:44): the body
      has every property of the form data but the certificate type, each
      with its value. The certificate type is absent because `Payload` has
      no field for it. */
  function WithoutCertificateType(data: FormData): (payload: Payload)
    ensures forall key :: key != CertificateType ==> Lookup(payload, key) == Some(Get(data, key))
    ensures Lookup(payload, CertificateType) == None
  {
    Payload(data.commonName, data.organization, data.organizationalUnit, data.country,
            data.state, data.locality, data.emailAddress)
  }

  /** The form data a body and a certificate type describe. */
  function WithCertificateType(payload: Payload, certificateType: string): FormData {
    FormData(payload.commonName, payload.organization, payload.organizationalUnit, payload.country,
             payload.state, payload.locality, payload.emailAddress, certificateType)
  }

  /** Stripping loses nothing but the certificate type, which the endpoint
      carries instead: the form data comes back from the body and its type,
      and every body and type arise this way. */
  lemma StripRoundTrip(data: FormData, payload: Payload, certificateType: string)
    ensures WithCertificateType(WithoutCertificateType(data), data.certificateType) == data
    ensures WithoutCertificateType(WithCertificateType(payload, certificateType)) == payload
  {
  }

  /** The form data the component starts with and returns to on reset
      (App.js:7-16 and App.js:86-95): every text field empty, the certificate
      type "signed". */
  function InitialFormData(): (data: FormData)
    ensures forall key :: Get(data, key) == if key == CertificateType then "signed" else ""
  {
    FormData("", "", "", "", "", "", "", "signed")
  }

  /** The form as it starts is refused on all five checked properties: every
      pattern needs at least one character. */
  lemma InitialFormRejected()
    ensures Errors(InitialFormData()).Keys == CheckedKeys
  {
    var data := InitialFormData();
    forall key | key in CheckedKeys
      ensures key in Errors(data)
    {
      assert Get(data, key) == "";
    }
  }

  class App {
    var formData: FormData
    var validationErrors: map<Key, string>
    /** The POSTs made so far, oldest first. */
    var requests: seq<Request>

    constructor ()
      ensures formData == InitialFormData() && validationErrors == map[] && requests == []
    {
      formData := InitialFormData();
      validationErrors := map[];
      requests := [];
    }

    /** `sendPostRequest` (App.js:53-82): a POST of `data` to `apiUrl`. */
    method SendPostRequest(data: Payload, apiUrl: string)
      modifies this`requests
      ensures requests == old(requests) + [Request(apiUrl, data)]
    {
      requests := requests + [Request(apiUrl, data)];
    }

    /** `handleSubmit` (App.js:20-51): a form with errors is not sent and its
        errors are shown; a valid form is sent once, to the endpoint of its
        certificate type, without its certificate type, and the errors are
        cleared. The form data itself is kept either way. */
    method HandleSubmit()
      modifies this`validationErrors, this`requests
      ensures formData == old(formData)
      ensures Errors(formData) != map[] ==>
        validationErrors == Errors(formData) && requests == old(requests)
      ensures Errors(formData) == map[] ==>
        && validationErrors == map[]
        && requests == old(requests) + [Request(Url(BaseUrl, formData.certificateType), WithoutCertificateType(formData))]
    {
      var errors := ValidateFormData(formData);
      if |errors| == 0 {
        var apiUrl := ResolveEndpoint(BaseUrl, formData.certificateType);
        var payload := WithoutCertificateType(formData);
        SendPostRequest(payload, apiUrl);
        validationErrors := map[];
      } else {
        validationErrors := errors;
      }
    }

    /** `handleReset` (App.js:84-97): back to the initial form, no errors. */
    method HandleReset()
      modifies this`formData, this`validationErrors
      ensures formData == InitialFormData() && validationErrors == map[]
      ensures requests == old(requests)
    {
      formData := InitialFormData();
      validationErrors := map[];
    }

    /** The input-change handler (App.js:135-137): the property named by the
        input takes the input's value; nothing else changes. */
    method HandleInputChange(name: Key, value: string)
      modifies this`formData
      ensures formData == Update(old(formData), name, value)
      ensures validationErrors == old(validationErrors) && requests == old(requests)
    {
      formData := Update(formData, name, value);
    }
  }

  /** Resetting twice leaves the same state as resetting once: the results
      are the state after the first reset, and the second reset keeps it. */
  method ResetTwice(app: App) returns (formData: FormData, validationErrors: map<Key, string>, requests: seq<Request>)
    modifies app
    ensures formData == InitialFormData() && validationErrors == map[] && requests == old(app.requests)
    ensures app.formData == formData && app.validationErrors == validationErrors && app.requests == requests
  {
    app.HandleReset();
    formData, validationErrors, requests := app.formData, app.validationErrors, app.requests;
    app.HandleReset();
  }

  /** An example subject that fills in every property. */
  const JaneDoe := FormData("Jane Doe", "Acme 1", "IT", "US", "CA", "Metropolis", "jane@acme.com", "CA")

  /** The example subject passes every test. */
  lemma JaneDoeValid()
    ensures Errors(JaneDoe) == map[]
  {
    var email := JaneDoe.emailAddress;
    assert email[..4] == "jane" && email[5..9] == "acme" && email[10..] == "com";
    assert EmailSplit(email, 4, 9);
    forall key | key in CheckedKeys
      ensures Matches(key, Get(JaneDoe, key))
    {
    }
    ValidIff(JaneDoe);
  }

  /** The same subject with the address "not-an-email" fails on exactly the
      address. */
  lemma NotAnEmailRejected()
    ensures Errors(JaneDoe.(emailAddress := "not-an-email")) == map[EmailAddress := EmailAddressMessage]
  {
    var s := "not-an-email";
    assert !Matches(EmailAddress, s) by {
      assert '@' !in s;
      if EmailPattern(s) {
        EmailShape(s);
      }
    }
    JaneDoeValid();
    ErrorsIndependent(JaneDoe, EmailAddress, s);
    assert Update(JaneDoe, EmailAddress, s) == JaneDoe.(emailAddress := s);
  }

  /** Typing every property into the form, through the input-change
      handler, leaves exactly the typed values. */
  method FillIn(app: App, data: FormData)
    modifies app
    ensures app.formData == data
    ensures app.validationErrors == old(app.validationErrors) && app.requests == old(app.requests)
  {
    app.HandleInputChange(CommonName, data.commonName);
    app.HandleInputChange(Organization, data.organization);
    app.HandleInputChange(OrganizationalUnit, data.organizationalUnit);
    app.HandleInputChange(Country, data.country);
    app.HandleInputChange(State, data.state);
    app.HandleInputChange(Locality, data.locality);
    app.HandleInputChange(EmailAddress, data.emailAddress);
    app.HandleInputChange(CertificateType, data.certificateType);
  }

  /** Filling in the example subject, choosing "CA" and submitting sends
      exactly one request, to the "/Ca" endpoint, whose body is the subject
      without its certificate type; no errors are shown and the form keeps
      its data. */
  method SubmitJaneDoe() returns (app: App)
    ensures app.requests ==
      [Request(BaseUrl + "/Ca", Payload("Jane Doe", "Acme 1", "IT", "US", "CA", "Metropolis", "jane@acme.com"))]
    ensures app.validationErrors == map[]
    ensures app.formData == JaneDoe
  {
    app := new App();
    FillIn(app, JaneDoe);
    JaneDoeValid();
    app.HandleSubmit();
  }

  /** Submitting the same subject with the address "not-an-email" sends
      nothing and shows only the address's message. */
  method SubmitBadAddress() returns (app: App)
    ensures app.requests == []
    ensures app.validationErrors == map[EmailAddress := "Invalid email address"]
    ensures app.formData == JaneDoe.(emailAddress := "not-an-email")
  {
    app := new App();
    FillIn(app, JaneDoe.(emailAddress := "not-an-email"));
    NotAnEmailRejected();
    assert EmailAddress in Errors(app.formData);
    app.HandleSubmit();
  }
}
