/**
 * `UserMapper.Validate`
 * (PC-Volume-Controller/PC-Volume-Controller/Authentication/UserMapper.cs):
 * basic authentication against the single user configured in the
 * application settings. The configured username and password are inputs;
 * a missing setting is `None`, as is a null credential.
 */
module UserMapper {
  import opened Wrappers
  import opened Text

  /** The identity handed to the framework; its claims are never set. */
  datatype User = User(userName: string)

  /** `string.IsNullOrWhiteSpace`. */
  predicate IsNullOrWhiteSpace(s: Option<string>) {
    s.None? || forall i :: 0 <= i < |s.value| ==> IsWhiteSpace(s.value[i])
  }

  /** `Validate`: a user only for the configured, non-blank credentials. */
  function Validate(username: Option<string>, password: Option<string>,
                    expectedUsername: Option<string>, expectedPassword: Option<string>): (r: Option<User>)
    ensures IsNullOrWhiteSpace(username) || IsNullOrWhiteSpace(password) ==> r.None?
    ensures IsNullOrWhiteSpace(expectedUsername) || IsNullOrWhiteSpace(expectedPassword) ==> r.None?
    ensures username != expectedUsername || password != expectedPassword ==> r.None?
    ensures r.Some? ==> username.Some? && r.value.userName == username.value
  {
    if IsNullOrWhiteSpace(username) || IsNullOrWhiteSpace(password) then None
    else if IsNullOrWhiteSpace(expectedUsername) || IsNullOrWhiteSpace(expectedPassword) then None
    else if username != expectedUsername || password != expectedPassword then None
    else Some(User(username.value))
  }

  /** The configured credentials, when both are set and not blank, are accepted. */
  lemma ConfiguredCredentialsAccepted(expectedUsername: string, expectedPassword: string)
    requires !IsNullOrWhiteSpace(Some(expectedUsername)) && !IsNullOrWhiteSpace(Some(expectedPassword))
    ensures Validate(Some(expectedUsername), Some(expectedPassword), Some(expectedUsername), Some(expectedPassword))
            == Some(User(expectedUsername))
  {
  }

  /** Whatever is supplied, the only user ever admitted is the configured one. */
  lemma OnlyConfiguredUserAdmitted(username: Option<string>, password: Option<string>,
                                   expectedUsername: Option<string>, expectedPassword: Option<string>)
    requires Validate(username, password, expectedUsername, expectedPassword).Some?
    ensures expectedUsername.Some? && Validate(username, password, expectedUsername, expectedPassword).value.userName == expectedUsername.value
    ensures password == expectedPassword && !IsNullOrWhiteSpace(password)
  {
  }

  /** A username made only of white space is refused even when it is the configured one. */
  lemma BlankUserRefused(blank: string, password: Option<string>, expectedPassword: Option<string>)
    requires forall i :: 0 <= i < |blank| ==> IsWhiteSpace(blank[i])
    ensures Validate(Some(blank), password, Some(blank), expectedPassword).None?
  {
  }
}
