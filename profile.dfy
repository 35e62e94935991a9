/**
 * The default mappers for directory (LDAP-style) records
 * (`invenio_cern_sync/users/profile.py`): the user profile and the
 * remote-account extra data.
 *
 * As written, every `first_or_default` call in this file passes one argument,
 * the attribute's value list, where the function takes the record and the
 * attribute name; Python raises TypeError for each call (or KeyError first,
 * when the attribute itself is absent). The As-written functions below model
 * that; the mappers the rest of the model uses pass the record and the name,
 * which is what the tests of the serializer expect (a missing optional
 * attribute reads as "").
 */
module LdapProfile {
  import opened Results
  import opened Json
  import opened Text
  import opened Utils

  /** Profile key, and the directory attribute its value is read from. */
  const ProfileSources: seq<(string, string)> := [
    ("cern_department", "division"),
    ("cern_group", "cernGroup"),
    ("cern_section", "cernSection"),
    ("family_name", "sn"),
    ("full_name", "displayName"),
    ("given_name", "givenName"),
    ("institute_abbreviation", "cernInstituteAbbreviation"),
    ("institute", "cernInstituteName"),
    ("mailbox", "postOfficeBox"),
    ("person_id", "employeeID")
  ]

  const ProfileKeys: set<string> := {
    "cern_department", "cern_group", "cern_section", "family_name", "full_name",
    "given_name", "institute_abbreviation", "institute", "mailbox", "person_id"
  }

  /** The exception a mapper raises as written. */
  datatype MapperFault =
    | AttributeMissing(name: string)  // `ldap_user[name]` on an absent attribute
    | ArgumentMissing                 // `first_or_default` called without its `key` argument

  /**
   * A mapper as written fails on its first line: `ldap_user[attribute]`
   * raises KeyError when the attribute is absent, and otherwise the
   * one-argument `first_or_default` call raises TypeError.
   */
  function FirstLineFault(u: LdapUser, attribute: string): (r: Result<Dict, MapperFault>)
    ensures r.Err?
    ensures r.error == if attribute in u then ArgumentMissing else AttributeMissing(attribute)
  {
    if attribute !in u then Err(AttributeMissing(attribute)) else Err(ArgumentMissing)
  }

  /** `userprofile_mapper` as written: the first line indexes "division". */
  function UserprofileMapperAsWritten(u: LdapUser): (r: Result<Dict, MapperFault>)
    ensures r.Err?
    ensures r.error == if "division" in u then ArgumentMissing else AttributeMissing("division")
  {
    FirstLineFault(u, "division")
  }

  /** `remoteaccount_extradata_mapper` as written: the first line indexes "employeeID". */
  function RemoteaccountExtradataMapperAsWritten(u: LdapUser): (r: Result<Dict, MapperFault>)
    ensures r.Err?
    ensures r.error == if "employeeID" in u then ArgumentMissing else AttributeMissing("employeeID")
  {
    FirstLineFault(u, "employeeID")
  }

  /** `userprofile_mapper`, each value read with `first_or_default(ldap_user, attribute)`. */
  function UserprofileMapper(u: LdapUser): Dict
  {
    map[
      "cern_department" := Str(FirstOrDefault(u, "division", "")),
      "cern_group" := Str(FirstOrDefault(u, "cernGroup", "")),
      "cern_section" := Str(FirstOrDefault(u, "cernSection", "")),
      "family_name" := Str(FirstOrDefault(u, "sn", "")),
      "full_name" := Str(FirstOrDefault(u, "displayName", "")),
      "given_name" := Str(FirstOrDefault(u, "givenName", "")),
      "institute_abbreviation" := Str(FirstOrDefault(u, "cernInstituteAbbreviation", "")),
      "institute" := Str(FirstOrDefault(u, "cernInstituteName", "")),
      "mailbox" := Str(FirstOrDefault(u, "postOfficeBox", "")),
      "person_id" := Str(FirstOrDefault(u, "employeeID", ""))
    ]
  }

  /** The value under each profile key, read from its attribute: the first five keys. */
  lemma UserprofileValuesHead(u: LdapUser)
    ensures UserprofileMapper(u)["cern_department"] == Str(FirstOrDefault(u, "division", ""))
    ensures UserprofileMapper(u)["cern_group"] == Str(FirstOrDefault(u, "cernGroup", ""))
    ensures UserprofileMapper(u)["cern_section"] == Str(FirstOrDefault(u, "cernSection", ""))
    ensures UserprofileMapper(u)["family_name"] == Str(FirstOrDefault(u, "sn", ""))
    ensures UserprofileMapper(u)["full_name"] == Str(FirstOrDefault(u, "displayName", ""))
  {
  }

  /** The value under each profile key, read from its attribute: the last five keys. */
  lemma UserprofileValuesTail(u: LdapUser)
    ensures UserprofileMapper(u)["given_name"] == Str(FirstOrDefault(u, "givenName", ""))
    ensures UserprofileMapper(u)["institute_abbreviation"] == Str(FirstOrDefault(u, "cernInstituteAbbreviation", ""))
    ensures UserprofileMapper(u)["institute"] == Str(FirstOrDefault(u, "cernInstituteName", ""))
    ensures UserprofileMapper(u)["mailbox"] == Str(FirstOrDefault(u, "postOfficeBox", ""))
    ensures UserprofileMapper(u)["person_id"] == Str(FirstOrDefault(u, "employeeID", ""))
  {
  }

  /** Entry i of the profile sources, taken case by case. */
  lemma UserprofileEntry(u: LdapUser, i: nat)
    requires i < |ProfileSources|
    ensures UserprofileMapper(u)[ProfileSources[i].0] == Str(FirstOrDefault(u, ProfileSources[i].1, ""))
  {
    if i < 5 {
      UserprofileValuesHead(u);
      if i == 0 {
        assert ProfileSources[i] == ("cern_department", "division");
      } else if i == 1 {
        assert ProfileSources[i] == ("cern_group", "cernGroup");
      } else if i == 2 {
        assert ProfileSources[i] == ("cern_section", "cernSection");
      } else if i == 3 {
        assert ProfileSources[i] == ("family_name", "sn");
      } else {
        assert ProfileSources[i] == ("full_name", "displayName");
      }
    } else {
      UserprofileValuesTail(u);
      if i == 5 {
        assert ProfileSources[i] == ("given_name", "givenName");
      } else if i == 6 {
        assert ProfileSources[i] == ("institute_abbreviation", "cernInstituteAbbreviation");
      } else if i == 7 {
        assert ProfileSources[i] == ("institute", "cernInstituteName");
      } else if i == 8 {
        assert ProfileSources[i] == ("mailbox", "postOfficeBox");
      } else {
        assert ProfileSources[i] == ("person_id", "employeeID");
      }
    }
  }

  /**
   * The profile has exactly the ten profile keys; each value is the decoded
   * first value of its source attribute, and "" when the record has none.
   */
  lemma UserprofileFromAttributes(u: LdapUser)
    ensures UserprofileMapper(u).Keys == ProfileKeys
    ensures forall i :: 0 <= i < |ProfileSources| && HasFirst(u, ProfileSources[i].1) ==>
      UserprofileMapper(u)[ProfileSources[i].0] == Str(Decode(u[ProfileSources[i].1][0].data))
    ensures forall i :: 0 <= i < |ProfileSources| && !HasFirst(u, ProfileSources[i].1) ==>
      UserprofileMapper(u)[ProfileSources[i].0] == Str("")
  {
    forall i | 0 <= i < |ProfileSources|
      ensures HasFirst(u, ProfileSources[i].1) ==>
        UserprofileMapper(u)[ProfileSources[i].0] == Str(Decode(u[ProfileSources[i].1][0].data))
      ensures !HasFirst(u, ProfileSources[i].1) ==> UserprofileMapper(u)[ProfileSources[i].0] == Str("")
    {
      UserprofileEntry(u, i);
      FirstOrDefaultCases(u, ProfileSources[i].1, "");
    }
  }

  /** `remoteaccount_extradata_mapper`, each value read with `first_or_default(ldap_user, attribute)` and the username lower-cased. */
  function RemoteaccountExtradataMapper(u: LdapUser): Dict
  {
    map[
      "person_id" := Str(FirstOrDefault(u, "employeeID", "")),
      "uidNumber" := Str(FirstOrDefault(u, "uidNumber", "")),
      "username" := Str(Lower(FirstOrDefault(u, "cn", "")))
    ]
  }

  /**
   * The extra data has exactly person_id, uidNumber and username, read from
   * employeeID, uidNumber and cn, each "" when the record has no value for
   * its attribute; the username has no upper-case letter.
   */
  lemma RemoteaccountExtradataFromAttributes(u: LdapUser)
    ensures RemoteaccountExtradataMapper(u).Keys == {"person_id", "uidNumber", "username"}
    ensures HasFirst(u, "employeeID") ==> RemoteaccountExtradataMapper(u)["person_id"] == Str(Decode(u["employeeID"][0].data))
    ensures HasFirst(u, "uidNumber") ==> RemoteaccountExtradataMapper(u)["uidNumber"] == Str(Decode(u["uidNumber"][0].data))
    ensures HasFirst(u, "cn") ==> RemoteaccountExtradataMapper(u)["username"] == Str(Lower(Decode(u["cn"][0].data)))
    ensures !HasFirst(u, "employeeID") ==> RemoteaccountExtradataMapper(u)["person_id"] == Str("")
    ensures !HasFirst(u, "uidNumber") ==> RemoteaccountExtradataMapper(u)["uidNumber"] == Str("")
    ensures !HasFirst(u, "cn") ==> RemoteaccountExtradataMapper(u)["username"] == Str("")
    ensures exists name :: RemoteaccountExtradataMapper(u)["username"] == Str(name) && IsLower(name)
  {
    FirstOrDefaultCases(u, "employeeID", "");
    FirstOrDefaultCases(u, "uidNumber", "");
    FirstOrDefaultCases(u, "cn", "");
    LowerIsLower(FirstOrDefault(u, "cn", ""));
  }
}
