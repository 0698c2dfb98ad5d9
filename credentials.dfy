/** `AppwriteUserCreation.generate` (appwrite_lab/automations/models.py): the admin
    credentials and project of a new lab, all cut from one random key. The key, a
    `uuid4` rendered as text, is a parameter. */
module Credentials {
  import opened PyStr

  datatype AppwriteUserCreation = AppwriteUserCreation(
    adminEmail: string,
    adminPassword: string,
    projectId: string,
    projectName: string)

  const EmailPrefix: string := "admin"
  const EmailDomain: string := "@local.dev"
  const ProjectNamePrefix: string := "test-project-"

  /** `generate`: the fields of the receiver play no part, a new value is built from the
      key alone. */
  function Generate(randomKey: string): (c: AppwriteUserCreation)
    ensures c.projectId == randomKey
    ensures c.adminPassword == Take(randomKey, 16)
    ensures c.adminEmail == EmailPrefix + Last(randomKey, 6) + EmailDomain
    ensures c.projectName == ProjectNamePrefix + Last(randomKey, 6)
  {
    var password := Take(randomKey, 16);
    var lastSix := Last(randomKey, 6);
    AppwriteUserCreation(EmailPrefix + lastSix + EmailDomain, password, randomKey, ProjectNamePrefix + lastSix)
  }

  predicate IsHex(c: char)
  {
    '0' <= c <= '9' || 'a' <= c <= 'f'
  }

  /** The text of a `uuid4`: 36 characters, hex digits with dashes at 8, 13, 18 and 23. */
  predicate UuidText(key: string)
  {
    && |key| == 36
    && forall i :: 0 <= i < 36 ==> if i in {8, 13, 18, 23} then key[i] == '-' else IsHex(key[i])
  }

  /** The password is the start of the project id, 16 characters long for a uuid. */
  lemma PasswordOfUuid(key: string)
    requires UuidText(key)
    ensures var c := Generate(key);
      && |c.adminPassword| == 16
      && StartsWith(c.projectId, c.adminPassword)
      && forall i :: 0 <= i < 16 ==> c.adminPassword[i] == key[i]
  {
  }

  /** The email and the project name share one suffix: the key's last six characters,
      which for a uuid are hex digits. */
  lemma SharedSuffix(key: string)
    requires UuidText(key)
    ensures var c := Generate(key);
      && |c.adminEmail| == 21 && |c.projectName| == 19
      && c.adminEmail[5..11] == c.projectName[13..] == key[30..]
      && forall i :: 30 <= i < 36 ==> IsHex(key[i])
  {
    var c := Generate(key);
    assert c.adminEmail[5..11] == Last(key, 6);
    assert c.projectName[13..] == Last(key, 6);
    forall i | 30 <= i < 36 ensures IsHex(key[i]) {
      assert i !in {8, 13, 18, 23};
    }
  }

  /** The key can be read back from the generated credentials. */
  lemma KeyRecovered(a: string, b: string)
    requires Generate(a) == Generate(b)
    ensures a == b
  {
  }

  /** A key shorter than six characters is used whole for the suffix, as Python's
      slicing does. */
  lemma ShortKey(key: string)
    requires |key| < 6
    ensures Generate(key).adminEmail == EmailPrefix + key + EmailDomain
    ensures Generate(key).adminPassword == key
  {
    assert key[|key| - |key|..] == key;
  }
}
