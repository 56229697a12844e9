/** The form's data (App.js:7-16): one string per subject property plus the
    certificate type, and the property names by which the validator, the
    input-change handler and the error messages refer to them. */
module Fields {

  /** The property names of the form's data. They are also the names the
      form's inputs carry, so the input-change handler only ever names one
      of them. */
  datatype Key =
    | CommonName | Organization | OrganizationalUnit | Country | State
    | Locality | EmailAddress | CertificateType

  datatype FormData = FormData(
    commonName: string,
    organization: string,
    organizationalUnit: string,
    country: string,
    state: string,
    locality: string,
    emailAddress: string,
    certificateType: string)

  /** The value of a property, as `data[key]` reads it. */
  function Get(data: FormData, key: Key): string {
    match key
    case CommonName => data.commonName
    case Organization => data.organization
    case OrganizationalUnit => data.organizationalUnit
    case Country => data.country
    case State => data.state
    case Locality => data.locality
    case EmailAddress => data.emailAddress
    case CertificateType => data.certificateType
  }

  /** `{ ...data, [key]: value }`: the named property takes the new value
      and every other property keeps its own. */
  function Update(data: FormData, key: Key, value: string): (r: FormData)
    ensures Get(r, key) == value
    ensures forall other :: other != key ==> Get(r, other) == Get(data, other)
  {
    match key
    case CommonName => data.(commonName := value)
    case Organization => data.(organization := value)
    case OrganizationalUnit => data.(organizationalUnit := value)
    case Country => data.(country := value)
    case State => data.(state := value)
    case Locality => data.(locality := value)
    case EmailAddress => data.(emailAddress := value)
    case CertificateType => data.(certificateType := value)
  }

  /** Two form data values that agree on every property are the same. */
  lemma Extensionality(a: FormData, b: FormData)
    requires forall key :: Get(a, key) == Get(b, key)
    ensures a == b
  {
    assert Get(a, CommonName) == Get(b, CommonName);
    assert Get(a, Organization) == Get(b, Organization);
    assert Get(a, OrganizationalUnit) == Get(b, OrganizationalUnit);
    assert Get(a, Country) == Get(b, Country);
    assert Get(a, State) == Get(b, State);
    assert Get(a, Locality) == Get(b, Locality);
    assert Get(a, EmailAddress) == Get(b, EmailAddress);
    assert Get(a, CertificateType) == Get(b, CertificateType);
  }

  /** Writing back the value a property already holds changes nothing, and
      of two writes to one property only the later counts. */
  lemma {:induction false} UpdateLaws(data: FormData, key: Key, v1: string, v2: string)
    ensures Update(data, key, Get(data, key)) == data
    ensures Update(Update(data, key, v1), key, v2) == Update(data, key, v2)
  {
    Extensionality(Update(data, key, Get(data, key)), data);
    Extensionality(Update(Update(data, key, v1), key, v2), Update(data, key, v2));
  }
}
