/**
 * Turning directory records into the canonical user record the account code
 * consumes (`invenio_cern_sync/users/serializer.py`).
 *
 * As written, `_serialize_ldap_user` calls the two-argument `first_or_raise`
 * with three arguments, so every record raises TypeError, which the skip in
 * `serialize_ldap_users` does not catch. Even with two arguments a missing
 * mail or cn would raise KeyError or IndexError rather than the
 * InvalidLdapUser the loop skips. The evident intent is that a missing
 * employeeID, mail or cn raises `InvalidLdapUser(field, employee id)`, with
 * "unknown" as the employee id when employeeID itself is missing.
 * SerializeLdapUser models that intent; the As-written functions model the
 * code. The tests of the serializer also expect a missing uidNumber to raise
 * InvalidLdapUser (tests/users/test_serializer.py:79-86); neither the code
 * nor this model requires uidNumber, which only the extra-data mapper reads,
 * with "" as its default.
 *
 * `serialize_ldap_users` skips invalid records; the tests of the serializer
 * expect the error to reach the caller instead. The model follows the code.
 */
module Serializer {
  import opened Results
  import opened Json
  import opened Text
  import opened Utils
  import LdapProfile

  /** `InvalidLdapUser(key, employee_id)`. */
  datatype InvalidLdapUser = InvalidLdapUser(key: string, employeeId: string)

  /** The canonical user record: the dict `_serialize_ldap_user` returns. */
  datatype InvenioUser = InvenioUser(
    email: string,
    username: string,
    active: bool,
    userProfile: Dict,
    preferences: Dict,
    userIdentityId: string,
    remoteAccountExtraData: Dict)

  /** The exception the serializer raises as written. */
  datatype SerializeFault = TooManyArguments  // TypeError: first_or_raise takes 2 positional arguments but 3 were given

  /** `_serialize_ldap_user` as written: its first statement raises TypeError. */
  function SerializeLdapUserAsWritten(u: LdapUser, profileMapper: LdapUser -> Dict, extraDataMapper: LdapUser -> Dict)
    : (r: Result<InvenioUser, SerializeFault>)
    ensures r == Err(TooManyArguments)
  {
    Err(TooManyArguments)
  }

  /**
   * `serialize_ldap_users` as written: TypeError is not InvalidLdapUser, so
   * it leaves the generator at the first record.
   */
  function SerializeLdapUsersAsWritten(users: seq<LdapUser>, profileMapper: LdapUser -> Dict, extraDataMapper: LdapUser -> Dict)
    : (r: Yielded<InvenioUser, SerializeFault>)
    ensures r.items == []
    ensures r.raised.Some? <==> users != []
  {
    if users == [] then Yielded([], None)
    else match SerializeLdapUserAsWritten(users[0], profileMapper, extraDataMapper)
      case Ok(v) => Yielded([v], None)  // unreachable: the call always raises
      case Err(e) => Yielded([], Some(e))
  }

  /** The intended `first_or_raise(ldap_user, key, employee_id)`: a missing value raises InvalidLdapUser. */
  function RequiredAttribute(u: LdapUser, key: string, employeeId: string): (r: Result<string, InvalidLdapUser>)
    ensures r.Ok? <==> HasFirst(u, key)
    ensures r.Ok? ==> r.value == Decode(u[key][0].data)
    ensures r.Err? ==> r.error == InvalidLdapUser(key, employeeId)
  {
    match FirstOrRaise(u, key)
    case Ok(v) => Ok(v)
    case Err(_) => Err(InvalidLdapUser(key, employeeId))
  }

  /** `_serialize_ldap_user(ldap_user, userprofile_mapper, extra_data_mapper)`, with the intended first_or_raise. */
  function SerializeLdapUser(u: LdapUser, profileMapper: LdapUser -> Dict, extraDataMapper: LdapUser -> Dict)
    : Result<InvenioUser, InvalidLdapUser>
  {
    match RequiredAttribute(u, "employeeID", "unknown")
    case Err(e) => Err(e)
    case Ok(employeeId) =>
      match RequiredAttribute(u, "mail", employeeId)
      case Err(e) => Err(e)
      case Ok(mail) =>
        match RequiredAttribute(u, "cn", employeeId)
        case Err(e) => Err(e)
        case Ok(cn) =>
          Ok(InvenioUser(
            email := Lower(mail),
            username := Lower(cn),
            active := Lower(FirstOrDefault(u, "cernActiveStatus", "Active")) == "active",
            userProfile := profileMapper(u),
            preferences := map["locale" := Str(Lower(FirstOrDefault(u, "preferredLanguage", "en")))],
            userIdentityId := employeeId,
            remoteAccountExtraData := extraDataMapper(u)))
  }

  /** A record serializes exactly when it has employeeID, mail and cn. */
  predicate IsValid(u: LdapUser)
  {
    HasFirst(u, "employeeID") && HasFirst(u, "mail") && HasFirst(u, "cn")
  }

  /**
   * A record fails exactly when employeeID, mail or cn is missing; the error
   * names the first missing one and carries the employee id, or "unknown"
   * when employeeID itself is missing.
   */
  lemma SerializeLdapUserFailure(u: LdapUser, pm: LdapUser -> Dict, em: LdapUser -> Dict)
    ensures SerializeLdapUser(u, pm, em).Ok? <==> IsValid(u)
    ensures !HasFirst(u, "employeeID") ==>
      SerializeLdapUser(u, pm, em) == Err(InvalidLdapUser("employeeID", "unknown"))
    ensures HasFirst(u, "employeeID") && !HasFirst(u, "mail") ==>
      SerializeLdapUser(u, pm, em) == Err(InvalidLdapUser("mail", Decode(u["employeeID"][0].data)))
    ensures HasFirst(u, "employeeID") && HasFirst(u, "mail") && !HasFirst(u, "cn") ==>
      SerializeLdapUser(u, pm, em) == Err(InvalidLdapUser("cn", Decode(u["employeeID"][0].data)))
  {
  }

  /**
   * The fields of a serialized record: email and username are the first
   * mail and cn values lower-cased; the identity id is the first employeeID
   * value; active holds exactly when the status reads "active" in any case,
   * and when there is no status; preferences hold only the lower-cased
   * locale, "en" by default; profile and extra data are what the mappers return.
   */
  lemma SerializeLdapUserFields(u: LdapUser, pm: LdapUser -> Dict, em: LdapUser -> Dict)
    requires IsValid(u)
    ensures var r := SerializeLdapUser(u, pm, em).value;
      && r.email == Lower(Decode(u["mail"][0].data)) && IsLower(r.email)
      && r.username == Lower(Decode(u["cn"][0].data)) && IsLower(r.username)
      && r.userIdentityId == Decode(u["employeeID"][0].data)
      && (!HasFirst(u, "cernActiveStatus") ==> r.active)
      && (HasFirst(u, "cernActiveStatus") ==> (r.active <==> Lower(Decode(u["cernActiveStatus"][0].data)) == "active"))
      && r.preferences.Keys == {"locale"}
      && r.preferences["locale"] == Str(if HasFirst(u, "preferredLanguage")
                                        then Lower(Decode(u["preferredLanguage"][0].data)) else "en")
      && r.userProfile == pm(u)
      && r.remoteAccountExtraData == em(u)
  {
    LowerIsLower(Decode(u["mail"][0].data));
    LowerIsLower(Decode(u["cn"][0].data));
    if !HasFirst(u, "cernActiveStatus") {
      assert Lower("Active") == "active";
    }
    if !HasFirst(u, "preferredLanguage") {
      assert Lower("en") == "en";
    }
  }

  /**
   * With the default mappers, the profile's person_id and the extra data's
   * person_id both equal the record's identity id.
   */
  lemma DefaultMappersAgreeOnPersonId(u: LdapUser)
    requires IsValid(u)
    ensures var r := SerializeLdapUser(u, LdapProfile.UserprofileMapper, LdapProfile.RemoteaccountExtradataMapper).value;
      && r.userProfile["person_id"] == Str(r.userIdentityId)
      && r.remoteAccountExtraData["person_id"] == Str(r.userIdentityId)
  {
  }

  /** `serialize_ldap_users`: the serialized valid records, in input order; invalid ones are skipped. */
  function SerializeLdapUsers(users: seq<LdapUser>, pm: LdapUser -> Dict, em: LdapUser -> Dict): seq<InvenioUser>
  {
    if users == [] then []
    else match SerializeLdapUser(users[0], pm, em)
      case Ok(v) => [v] + SerializeLdapUsers(users[1..], pm, em)
      case Err(_) => SerializeLdapUsers(users[1..], pm, em)
  }

  /** Serializing a batch is serializing its parts: order is kept across the whole batch. */
  lemma {:induction false} SerializeLdapUsersAppend(a: seq<LdapUser>, b: seq<LdapUser>, pm: LdapUser -> Dict, em: LdapUser -> Dict)
    ensures SerializeLdapUsers(a + b, pm, em) == SerializeLdapUsers(a, pm, em) + SerializeLdapUsers(b, pm, em)
  {
    if a != [] {
      assert (a + b)[1..] == a[1..] + b;
      SerializeLdapUsersAppend(a[1..], b, pm, em);
    } else {
      assert a + b == b;
    }
  }

  /** The number of valid records in a batch. */
  function CountValid(users: seq<LdapUser>): (n: nat)
    ensures n <= |users|
  {
    if users == [] then 0 else (if IsValid(users[0]) then 1 else 0) + CountValid(users[1..])
  }

  /** Every valid record yields exactly one output and every invalid one none. */
  lemma {:induction false} SerializeLdapUsersCount(users: seq<LdapUser>, pm: LdapUser -> Dict, em: LdapUser -> Dict)
    ensures |SerializeLdapUsers(users, pm, em)| == CountValid(users)
  {
    if users != [] {
      SerializeLdapUserFailure(users[0], pm, em);
      SerializeLdapUsersCount(users[1..], pm, em);
    }
  }

  /** Each output is the serialization of some input record. */
  lemma {:induction false} SerializeLdapUsersProvenance(users: seq<LdapUser>, pm: LdapUser -> Dict, em: LdapUser -> Dict)
    ensures forall r :: r in SerializeLdapUsers(users, pm, em) ==>
      exists i :: 0 <= i < |users| && SerializeLdapUser(users[i], pm, em) == Ok(r)
  {
    if users != [] {
      SerializeLdapUsersProvenance(users[1..], pm, em);
      forall r | r in SerializeLdapUsers(users, pm, em)
        ensures exists i :: 0 <= i < |users| && SerializeLdapUser(users[i], pm, em) == Ok(r)
      {
        if r in SerializeLdapUsers(users[1..], pm, em) {
          var i :| 0 <= i < |users[1..]| && SerializeLdapUser(users[1..][i], pm, em) == Ok(r);
          assert users[i + 1] == users[1..][i];
        } else {
          assert SerializeLdapUser(users[0], pm, em) == Ok(r);
        }
      }
    }
  }

  /**
   * Partial-failure isolation: in a batch where exactly the record at k is
   * invalid, the other records all come through, in order, around it.
   */
  lemma {:induction false} PartialFailureIsolation(users: seq<LdapUser>, k: nat, pm: LdapUser -> Dict, em: LdapUser -> Dict)
    requires k < |users|
    requires !IsValid(users[k])
    requires forall i :: 0 <= i < |users| && i != k ==> IsValid(users[i])
    ensures SerializeLdapUsers(users, pm, em) ==
      SerializeLdapUsers(users[..k], pm, em) + SerializeLdapUsers(users[k + 1..], pm, em)
    ensures |SerializeLdapUsers(users, pm, em)| == |users| - 1
  {
    var pre, bad, post := users[..k], [users[k]], users[k + 1..];
    assert users == (pre + bad) + post;
    SerializeLdapUsersAppend(pre + bad, post, pm, em);
    SerializeLdapUsersAppend(pre, bad, pm, em);
    InvalidYieldsNothing(users[k], pm, em);
    var kept := SerializeLdapUsers(pre, pm, em);
    assert kept + [] == kept;
    SerializeLdapUsersCount(users, pm, em);
    CountValidOnlyOneInvalid(users, k);
  }

  lemma InvalidYieldsNothing(u: LdapUser, pm: LdapUser -> Dict, em: LdapUser -> Dict)
    requires !IsValid(u)
    ensures SerializeLdapUsers([u], pm, em) == []
  {
    SerializeLdapUserFailure(u, pm, em);
    assert [u][1..] == [];
  }

  lemma {:induction false} CountValidOnlyOneInvalid(users: seq<LdapUser>, k: nat)
    requires k < |users|
    requires !IsValid(users[k])
    requires forall i :: 0 <= i < |users| && i != k ==> IsValid(users[i])
    ensures CountValid(users) == |users| - 1
  {
    if k == 0 {
      AllValidCount(users[1..]);
    } else {
      CountValidOnlyOneInvalid(users[1..], k - 1);
    }
  }

  lemma {:induction false} AllValidCount(users: seq<LdapUser>)
    requires forall i :: 0 <= i < |users| ==> IsValid(users[i])
    ensures CountValid(users) == |users|
  {
    if users != [] {
      AllValidCount(users[1..]);
    }
  }
}
