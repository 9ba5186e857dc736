/** The `app.security` configuration: two credential lists and the Bean Validation
    constraints that are checked when the configuration is bound at startup. */
module SecurityProperties {
  import opened Wrappers
  import opened Basics

  /** One entry of `app.security.admins` or `app.security.viewers`. */
  datatype UserCredentials = UserCredentials(username: JString, password: JString)

  datatype AppSecurityProperties =
    AppSecurityProperties(admins: seq<UserCredentials>, viewers: seq<UserCredentials>)

  /** What a freshly constructed configuration holds: both lists empty. */
  const Defaults := AppSecurityProperties([], [])

  datatype CredentialList = Admins | Viewers

  /** A constraint violation found while binding the configuration. */
  datatype Violation =
    | NoAdmins
    | BlankUsername(list: CredentialList, index: nat)
    | BlankPassword(list: CredentialList, index: nat)

  const NoAdminsMessage := "At least one admin credential must be configured"

  /** The two `@NotBlank` fields declare no message, so the constraint's default message
      applies: the text the default resource bundle gives its message template. */
  const NotBlankMessage := "must not be blank"

  function Message(v: Violation): string {
    if v.NoAdmins? then NoAdminsMessage else NotBlankMessage
  }

  predicate CredentialsValid(c: UserCredentials) {
    !IsBlank(c.username) && !IsBlank(c.password)
  }

  predicate AllCredentialsValid(cs: seq<UserCredentials>) {
    forall i :: 0 <= i < |cs| ==> CredentialsValid(cs[i])
  }

  /** `@NotEmpty` on the admin list, and `@Valid` cascading `@NotBlank` into both lists. */
  predicate Valid(p: AppSecurityProperties) {
    |p.admins| > 0 && AllCredentialsValid(p.admins) && AllCredentialsValid(p.viewers)
  }

  function CredentialViolations(list: CredentialList, index: nat, c: UserCredentials): seq<Violation> {
    (if IsBlank(c.username) then [BlankUsername(list, index)] else [])
    + (if IsBlank(c.password) then [BlankPassword(list, index)] else [])
  }

  /** No violation is reported twice. */
  ghost predicate NoRepeats(r: seq<Violation>) {
    forall i, j :: 0 <= i < j < |r| ==> r[i] != r[j]
  }

  lemma NoRepeatsAppend(a: seq<Violation>, b: seq<Violation>)
    requires NoRepeats(a) && NoRepeats(b)
    requires forall v :: v in a ==> v !in b
    ensures NoRepeats(a + b)
  {
    forall i, j | 0 <= i < j < |a + b|
      ensures (a + b)[i] != (a + b)[j]
    {
      if i < |a| <= j {
        assert (a + b)[i] == a[i] && a[i] in a;
        assert (a + b)[j] == b[j - |a|];
      } else if |a| <= i {
        assert (a + b)[i] == b[i - |a|] && (a + b)[j] == b[j - |a|];
      }
    }
  }

  /** The violations the cascade reports for one list, entry by entry. */
  function ListViolations(list: CredentialList, cs: seq<UserCredentials>): (r: seq<Violation>)
    ensures forall v :: v in r ==> !v.NoAdmins? && v.list == list && v.index < |cs|
    ensures forall i :: 0 <= i < |cs| ==>
              (BlankUsername(list, i) in r <==> IsBlank(cs[i].username)) &&
              (BlankPassword(list, i) in r <==> IsBlank(cs[i].password))
    ensures r == [] <==> AllCredentialsValid(cs)
    ensures NoRepeats(r)
  {
    if cs == [] then []
    else
      var n := |cs| - 1;
      var prefix := ListViolations(list, cs[..n]);
      var last := CredentialViolations(list, n, cs[n]);
      var r := prefix + last;
      assert forall v :: v in last ==> v.index == n;
      NoRepeatsAppend(prefix, last);
      assert forall i :: 0 <= i < n ==> cs[..n][i] == cs[i];
      assert !AllCredentialsValid(cs[..n]) ==> !AllCredentialsValid(cs);
      r
  }

  /** Every violation binding reports; the process refuses to start unless there is none. */
  function Violations(p: AppSecurityProperties): (r: seq<Violation>)
    ensures NoAdmins in r <==> p.admins == []
    ensures forall i :: 0 <= i < |p.admins| ==>
              (BlankUsername(Admins, i) in r <==> IsBlank(p.admins[i].username)) &&
              (BlankPassword(Admins, i) in r <==> IsBlank(p.admins[i].password))
    ensures forall i :: 0 <= i < |p.viewers| ==>
              (BlankUsername(Viewers, i) in r <==> IsBlank(p.viewers[i].username)) &&
              (BlankPassword(Viewers, i) in r <==> IsBlank(p.viewers[i].password))
    ensures forall v :: v in r ==> v.NoAdmins? || v.index < |if v.list == Admins then p.admins else p.viewers|
    ensures r == [] <==> Valid(p)
    ensures NoRepeats(r)
  {
    var none := if p.admins == [] then [NoAdmins] else [];
    var admins := ListViolations(Admins, p.admins);
    var viewers := ListViolations(Viewers, p.viewers);
    NoRepeatsAppend(none, admins);
    NoRepeatsAppend(none + admins, viewers);
    none + admins + viewers
  }

  /** Both lists empty: startup fails, and only because no admin is configured. */
  lemma DefaultsRejected()
    ensures !Valid(Defaults)
    ensures Violations(Defaults) == [NoAdmins]
    ensures Message(Violations(Defaults)[0]) == "At least one admin credential must be configured"
  {
  }

  /** The viewer list may be empty: validity then depends on the admins alone. */
  lemma ViewersMayBeEmpty(admins: seq<UserCredentials>)
    ensures Valid(AppSecurityProperties(admins, [])) <==> |admins| > 0 && AllCredentialsValid(admins)
  {
  }
}
