/** The form validator, `validateFormData` (App.js:100-127). The result is
    an object from property name to error message, modelled as a map from
    `Key` to string, empty when the form is valid. */
module Validator {
  import opened CharClasses
  import opened Patterns
  import opened Fields

  /** The properties the validator tests; country, state and certificate
      type are never checked. */
  const CheckedKeys: set<Key> := {CommonName, Organization, OrganizationalUnit, Locality, EmailAddress}

  const CommonNameMessage := "Common Name should contain alphabets only"
  const OrganizationMessage := "Organization should contain alphanumeric characters and spaces only"
  const OrganizationalUnitMessage := "Organizational Unit should contain alphanumeric characters and spaces only"
  const LocalityMessage := "Locality should contain alphanumeric characters and spaces only"
  const EmailAddressMessage := "Invalid email address"

  /** The message stored under a failing property. */
  function Message(key: Key): string
    requires key in CheckedKeys
  {
    match key
    case CommonName => CommonNameMessage
    case Organization => OrganizationMessage
    case OrganizationalUnit => OrganizationalUnitMessage
    case Locality => LocalityMessage
    case EmailAddress => EmailAddressMessage
  }

  /** The pattern each checked property must match, read as a regular
      expression: `^[A-Za-z\s]+$` for the common name, the e-mail pattern for
      the address, `^[A-Za-z0-9\s]+$` for the other three. */
  ghost predicate Matches(key: Key, value: string)
    requires key in CheckedKeys
  {
    match key
    case CommonName => OneOrMore(NameChars, value)
    case EmailAddress => EmailPattern(value)
    case Organization | OrganizationalUnit | Locality => OneOrMore(TextChars, value)
  }

  /** The errors object: one entry per checked property whose value fails
      its pattern, each test made on its own. */
  ghost function Errors(data: FormData): map<Key, string>
  {
    map key | key in CheckedKeys && !Matches(key, Get(data, key)) :: Message(key)
  }

  /** The errors object once the tests of `checked` have run. */
  ghost function ErrorsAmong(data: FormData, checked: set<Key>): map<Key, string>
    requires checked <= CheckedKeys
  {
    map key | key in checked && !Matches(key, Get(data, key)) :: Message(key)
  }

  /** Running the test of one more property adds its message exactly when
      its value fails. */
  lemma TestOne(data: FormData, checked: set<Key>, key: Key)
    requires checked <= CheckedKeys && key in CheckedKeys && key !in checked
    ensures ErrorsAmong(data, checked + {key}) ==
      if Matches(key, Get(data, key)) then ErrorsAmong(data, checked)
      else ErrorsAmong(data, checked)[key := Message(key)]
  {
  }

  /** `validateFormData`: five independent tests, each adding its message to
      the errors object when its value does not match. */
  method ValidateFormData(data: FormData) returns (errors: map<Key, string>)
    ensures errors == Errors(data)
  {
    errors := map[];
    ghost var checked: set<Key> := {};
    if !OneOrMore(NameChars, data.commonName) {
      errors := errors[CommonName := CommonNameMessage];
    }
    assert errors == ErrorsAmong(data, checked + {CommonName}) by {
      TestOne(data, checked, CommonName);
    }
    checked := checked + {CommonName};
    if !OneOrMore(TextChars, data.organization) {
      errors := errors[Organization := OrganizationMessage];
    }
    assert errors == ErrorsAmong(data, checked + {Organization}) by {
      TestOne(data, checked, Organization);
    }
    checked := checked + {Organization};
    if !OneOrMore(TextChars, data.organizationalUnit) {
      errors := errors[OrganizationalUnit := OrganizationalUnitMessage];
    }
    assert errors == ErrorsAmong(data, checked + {OrganizationalUnit}) by {
      TestOne(data, checked, OrganizationalUnit);
    }
    checked := checked + {OrganizationalUnit};
    if !OneOrMore(TextChars, data.locality) {
      errors := errors[Locality := LocalityMessage];
    }
    assert errors == ErrorsAmong(data, checked + {Locality}) by {
      TestOne(data, checked, Locality);
    }
    checked := checked + {Locality};
    if !IsEmail(data.emailAddress) {
      errors := errors[EmailAddress := EmailAddressMessage];
    }
    assert errors == ErrorsAmong(data, checked + {EmailAddress}) by {
      TestOne(data, checked, EmailAddress);
      EmailDecision(data.emailAddress);
    }
    checked := checked + {EmailAddress};
    assert checked == CheckedKeys;
  }

  /** The form is valid exactly when every checked property matches its
      pattern. */
  lemma ValidIff(data: FormData)
    ensures Errors(data) == map[] <==> forall key :: key in CheckedKeys ==> Matches(key, Get(data, key))
  {
    if Errors(data) == map[] {
      forall key | key in CheckedKeys
        ensures Matches(key, Get(data, key))
      {
        assert key !in Errors(data);
      }
    }
  }

  /** Country, state and certificate type never carry an error, and every
      error is the checked property's own message. */
  lemma ErrorKeys(data: FormData)
    ensures Errors(data).Keys <= CheckedKeys
    ensures Country !in Errors(data) && State !in Errors(data) && CertificateType !in Errors(data)
    ensures forall key :: key in Errors(data) ==> Errors(data)[key] == Message(key)
  {
  }

  /** Writing one property leaves every other property's test as it was. */
  lemma OthersUnaffected(data: FormData, key: Key, value: string, other: Key)
    requires other != key
    ensures other in Errors(Update(data, key, value)) <==> other in Errors(data)
  {
    assert Get(Update(data, key, value), other) == Get(data, other);
  }

  /** A checked property given a value that passes loses its entry; every
      other entry stays. */
  lemma {:induction false} FixingRemovesEntry(data: FormData, key: Key, value: string)
    requires key in CheckedKeys && Matches(key, value)
    ensures Errors(Update(data, key, value)) == Errors(data) - {key}
  {
    var after, expected := Errors(Update(data, key, value)), Errors(data) - {key};
    forall other | other != key
      ensures other in after <==> other in expected
    {
      OthersUnaffected(data, key, value, other);
    }
    assert after.Keys == expected.Keys;
  }

  /** A checked property given a value that fails gains its message; every
      other entry stays. */
  lemma {:induction false} BreakingAddsEntry(data: FormData, key: Key, value: string)
    requires key in CheckedKeys && !Matches(key, value)
    ensures Errors(Update(data, key, value)) == Errors(data)[key := Message(key)]
  {
    var after, expected := Errors(Update(data, key, value)), Errors(data)[key := Message(key)];
    forall other | other != key
      ensures other in after <==> other in expected
    {
      OthersUnaffected(data, key, value, other);
    }
    assert after.Keys == expected.Keys;
  }

  /** The tests do not interfere: changing a checked property changes only
      that property's entry, whatever the other properties hold. */
  lemma {:induction false} ErrorsIndependent(data: FormData, key: Key, value: string)
    requires key in CheckedKeys
    ensures Errors(Update(data, key, value)) ==
      if Matches(key, value) then Errors(data) - {key} else Errors(data)[key := Message(key)]
  {
    if Matches(key, value) {
      FixingRemovesEntry(data, key, value);
    } else {
      BreakingAddsEntry(data, key, value);
    }
  }

  /** Country, state and certificate type play no part: changing one of
      them leaves the errors as they were. */
  lemma {:induction false} ErrorsIgnoreUnchecked(data: FormData, key: Key, value: string)
    requires key !in CheckedKeys
    ensures Errors(Update(data, key, value)) == Errors(data)
  {
    var changed := Update(data, key, value);
    forall k | k in CheckedKeys
      ensures Matches(k, Get(changed, k)) == Matches(k, Get(data, k))
    {
      assert Get(changed, k) == Get(data, k);
    }
  }

  /** The common name fails exactly when it is empty or holds a character
      that is neither an ASCII letter nor JavaScript white space; a name of
      white space only passes. */
  lemma CommonNameRule(data: FormData)
    ensures var v := data.commonName;
      CommonName in Errors(data) <==>
        v == "" || exists i :: 0 <= i < |v| && !IsAsciiLetter(v[i]) && !IsJsSpace(v[i])
  {
  }

  /** Organization, organizational unit and locality each fail exactly when
      empty or holding a character outside ASCII letters, digits and
      JavaScript white space. */
  lemma TextRule(data: FormData, key: Key)
    requires key == Organization || key == OrganizationalUnit || key == Locality
    ensures var v := Get(data, key);
      key in Errors(data) <==>
        v == "" || exists i :: 0 <= i < |v| && !IsAsciiLetter(v[i]) && !IsAsciiDigit(v[i]) && !IsJsSpace(v[i])
  {
  }

  /** The address fails exactly when the decision procedure rejects it:
      one `@`, a non-empty local part over `[A-Za-z0-9._%+-]`, a domain over
      `[A-Za-z0-9.-]` whose last `.` is not its first character and is
      followed by at least two ASCII letters. */
  lemma EmailRule(data: FormData)
    ensures EmailAddress in Errors(data) <==> !IsEmail(data.emailAddress)
  {
    EmailDecision(data.emailAddress);
  }

  /** A common name with a digit or a symbol in it fails. */
  lemma CommonNameRejectsNonLetter(data: FormData, i: nat)
    requires i < |data.commonName|
    requires var c := data.commonName[i]; !IsAsciiLetter(c) && !IsJsSpace(c)
    ensures Errors(data)[CommonName] == "Common Name should contain alphabets only"
  {
  }

  /** An address without `@`, or without two characters after its last `.`,
      fails. */
  lemma EmailRejectsMissingParts(data: FormData)
    requires var v := data.emailAddress;
      '@' !in v || LastIndexOf(v, '.').None? || |v| - LastIndexOf(v, '.').value - 1 < 2
    ensures Errors(data)[EmailAddress] == "Invalid email address"
  {
    if EmailPattern(data.emailAddress) {
      EmailShape(data.emailAddress);
    }
  }
}
