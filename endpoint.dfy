/** The endpoint `switch` of `handleSubmit` (App.js:26-43): the certificate
    type picks the path segment appended to the issuance service's base URL. */
module Endpoint {

  /** The base URL the source hard-codes (App.js:26). */
  const BaseUrl := "http://localhost:8080/create/certificate"

  /** The certificate types the form offers. */
  const KnownTypes: set<string> := {"signed", "self-signed", "CA", "unsigned"}

  /** The segment each certificate type selects; the casing of "/Ca" and
      "/Unsigned" differs from the type names, and any other type selects
      nothing. */
  function Segment(certificateType: string): string {
    if certificateType == "signed" then "/signed"
    else if certificateType == "self-signed" then "/self-signed"
    else if certificateType == "CA" then "/Ca"
    else if certificateType == "unsigned" then "/Unsigned"
    else ""
  }

  /** The URL a submission goes to. */
  function Url(base: string, certificateType: string): (url: string)
    ensures base <= url
    ensures certificateType !in KnownTypes <==> url == base
  {
    base + Segment(certificateType)
  }

  /** The switch as the source writes it: start from the base and append
      the selected segment with `+=`. */
  method ResolveEndpoint(base: string, certificateType: string) returns (apiUrl: string)
    ensures apiUrl == Url(base, certificateType)
  {
    apiUrl := base;
    if certificateType == "signed" {
      apiUrl := apiUrl + "/signed";
    } else if certificateType == "self-signed" {
      apiUrl := apiUrl + "/self-signed";
    } else if certificateType == "CA" {
      apiUrl := apiUrl + "/Ca";
    } else if certificateType == "unsigned" {
      apiUrl := apiUrl + "/Unsigned";
    }
  }

  /** The certificate type a URL designates, read back from its segment. */
  function TypeOf(base: string, url: string): (t: string)
  {
    if |url| < |base| || url[..|base|] != base then ""
    else
      var segment := url[|base|..];
      if segment == "/signed" then "signed"
      else if segment == "/self-signed" then "self-signed"
      else if segment == "/Ca" then "CA"
      else if segment == "/Unsigned" then "unsigned"
      else ""
  }

  /** The four types resolve to the four URLs the switch builds, and any
      other type leaves the base unchanged. */
  lemma UrlTable(base: string, certificateType: string)
    ensures Url(base, "signed") == base + "/signed"
    ensures Url(base, "self-signed") == base + "/self-signed"
    ensures Url(base, "CA") == base + "/Ca"
    ensures Url(base, "unsigned") == base + "/Unsigned"
    ensures certificateType !in KnownTypes ==> Url(base, certificateType) == base
  {
  }

  /** Each known type can be read back from its URL, so no two types share
      an endpoint. */
  lemma {:induction false} UrlRoundTrip(base: string, certificateType: string)
    ensures TypeOf(base, Url(base, certificateType)) ==
      if certificateType in KnownTypes then certificateType else ""
  {
    var url := Url(base, certificateType);
    assert url[..|base|] == base;
    assert url[|base|..] == Segment(certificateType);
  }

  /** Different known types go to different endpoints. */
  lemma UrlInjective(base: string, t1: string, t2: string)
    requires t1 in KnownTypes && t2 in KnownTypes && t1 != t2
    ensures Url(base, t1) != Url(base, t2)
  {
    UrlRoundTrip(base, t1);
    UrlRoundTrip(base, t2);
  }
}
