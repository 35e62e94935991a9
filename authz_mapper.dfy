/**
 * The default mappers for identities returned by the authorization service
 * (`invenio_cern_sync/authz/mapper.py`). An identity is a JSON object; a
 * field the mapper indexes directly must be present, or Python raises
 * KeyError for the first one missing, in the order the fields are read.
 */
module AuthzMapper {
  import opened Results
  import opened Json
  import opened Text

  datatype MapError =
    | KeyError(key: string)        // `cern_identity[key]` on an absent field
    | AttributeError(key: string)  // `.lower()` on a field that is not a string

  /** The identity fields the profile mapper indexes directly, in the order it reads them. */
  const RequiredProfileFields: seq<string> := [
    "cernDepartment", "cernGroup", "cernSection", "lastName", "displayName",
    "firstName", "instituteAbbreviation", "instituteName", "personId"
  ]

  /** The keys of every profile this mapper returns. */
  const ProfileKeys: set<string> := {
    "cern_department", "cern_group", "cern_section", "family_name", "full_name",
    "given_name", "institute_abbreviation", "institute", "mailbox", "person_id"
  }

  /** The first of `keys` that `d` lacks, if any. */
  function FirstAbsent(d: Dict, keys: seq<string>): (r: Option<string>)
    ensures r.None? <==> forall k :: k in keys ==> k in d
    ensures r.Some? ==> exists i :: 0 <= i < |keys| && keys[i] == r.value && r.value !in d &&
                                    forall k :: k in keys[..i] ==> k in d
  {
    if keys == [] then None
    else if keys[0] !in d then
      assert keys[..0] == [];
      Some(keys[0])
    else
      var rest := FirstAbsent(d, keys[1..]);
      if rest.Some? then
        ghost var i :| 0 <= i < |keys[1..]| && keys[1..][i] == rest.value && rest.value !in d &&
                       forall k :: k in keys[1..][..i] ==> k in d;
        assert keys[..i + 1] == [keys[0]] + keys[1..][..i];
        rest
      else
        assert keys == [keys[0]] + keys[1..];
        rest
  }

  predicate HasProfileFields(ci: Dict)
  {
    && "cernDepartment" in ci && "cernGroup" in ci && "cernSection" in ci
    && "lastName" in ci && "displayName" in ci && "firstName" in ci
    && "instituteAbbreviation" in ci && "instituteName" in ci && "personId" in ci
  }

  /**
   * `userprofile_mapper(cern_identity)`: the profile, or KeyError for the
   * first required field, in reading order, that the identity lacks.
   */
  function UserprofileMapper(ci: Dict): Result<Dict, MapError>
  {
    if HasProfileFields(ci) then Ok(Profile(ci))
    else
      RequiredFieldsPresent(ci);
      Err(KeyError(FirstAbsent(ci, RequiredProfileFields).value))
  }

  /** The profile built from an identity that has every required field. */
  function Profile(ci: Dict): Dict
    requires HasProfileFields(ci)
  {
    map[
      "cern_department" := ci["cernDepartment"],
      "cern_group" := ci["cernGroup"],
      "cern_section" := ci["cernSection"],
      "family_name" := ci["lastName"],
      "full_name" := ci["displayName"],
      "given_name" := ci["firstName"],
      "institute_abbreviation" := ci["instituteAbbreviation"],
      "institute" := ci["instituteName"],
      "mailbox" := GetOr(ci, "postOfficeBox", Str("")),
      "person_id" := ci["personId"]
    ]
  }

  /**
   * The profile mapper succeeds exactly when every required field is
   * present; a failure names a required field that is absent, and every
   * required field read before it is present.
   */
  lemma {:induction false} UserprofileMapperFailsOnMissingField(ci: Dict)
    ensures UserprofileMapper(ci).Ok? <==> forall f :: f in RequiredProfileFields ==> f in ci
    ensures UserprofileMapper(ci).Err? ==>
      var key := UserprofileMapper(ci).error.key;
      && UserprofileMapper(ci).error.KeyError?
      && key !in ci
      && exists i :: 0 <= i < |RequiredProfileFields| && RequiredProfileFields[i] == key &&
                     forall f :: f in RequiredProfileFields[..i] ==> f in ci
  {
    RequiredFieldsPresent(ci);
    var r := FirstAbsent(ci, RequiredProfileFields);
    assert r.None? <==> forall f :: f in RequiredProfileFields ==> f in ci;
  }

  /**
   * A profile the mapper returns has exactly the ten profile keys; each
   * value is copied unchanged from its identity field, and mailbox is ""
   * when postOfficeBox is absent.
   */
  lemma UserprofileMapperCopiesFields(ci: Dict)
    requires UserprofileMapper(ci).Ok?
    ensures var p := UserprofileMapper(ci).value;
      && p.Keys == ProfileKeys
      && p["cern_department"] == ci["cernDepartment"]
      && p["cern_group"] == ci["cernGroup"]
      && p["cern_section"] == ci["cernSection"]
      && p["family_name"] == ci["lastName"]
      && p["full_name"] == ci["displayName"]
      && p["given_name"] == ci["firstName"]
      && p["institute_abbreviation"] == ci["instituteAbbreviation"]
      && p["institute"] == ci["instituteName"]
      && p["mailbox"] == (if "postOfficeBox" in ci then ci["postOfficeBox"] else Str(""))
      && p["person_id"] == ci["personId"]
  {
    ProfileKeysExact(ci);
  }

  lemma RequiredFieldsPresent(ci: Dict)
    ensures FirstAbsent(ci, RequiredProfileFields).None? <==> HasProfileFields(ci)
  {
    if FirstAbsent(ci, RequiredProfileFields).None? {
      assert forall k :: k in RequiredProfileFields ==> k in ci;
      assert "cernGroup" in RequiredProfileFields && "cernSection" in RequiredProfileFields;
      assert "lastName" in RequiredProfileFields && "displayName" in RequiredProfileFields;
      assert "firstName" in RequiredProfileFields && "instituteAbbreviation" in RequiredProfileFields;
      assert "instituteName" in RequiredProfileFields && "personId" in RequiredProfileFields;
    }
  }

  lemma ProfileKeysExact(ci: Dict)
    requires HasProfileFields(ci)
    ensures Profile(ci).Keys == ProfileKeys
  {
  }

  /** `remoteaccount_extradata_mapper(cern_identity)`: personId, uid and the lower-cased upn, read in that order. */
  function RemoteaccountExtradataMapper(ci: Dict): Result<Dict, MapError>
  {
    if "personId" !in ci then Err(KeyError("personId"))
    else if "uid" !in ci then Err(KeyError("uid"))
    else if "upn" !in ci then Err(KeyError("upn"))
    else match ci["upn"]
      case Str(upn) => Ok(map[
        "person_id" := ci["personId"],
        "uidNumber" := ci["uid"],
        "username" := Str(Lower(upn))
      ])
      case _ => Err(AttributeError("upn"))
  }

  /**
   * The extra-data mapper succeeds exactly when personId and uid are present
   * and upn is a string; then the extra data has exactly person_id, uidNumber
   * and username, uid passes through unchanged (an integer stays an integer)
   * and the username is the lower-cased upn.
   */
  lemma RemoteaccountExtradataMapperMeaning(ci: Dict)
    ensures RemoteaccountExtradataMapper(ci).Ok? <==>
      "personId" in ci && "uid" in ci && "upn" in ci && ci["upn"].Str?
    ensures RemoteaccountExtradataMapper(ci).Ok? ==>
      var x := RemoteaccountExtradataMapper(ci).value;
      && x.Keys == {"person_id", "uidNumber", "username"}
      && x["person_id"] == ci["personId"]
      && x["uidNumber"] == ci["uid"]
      && x["username"] == Str(Lower(ci["upn"].s))
      && IsLower(x["username"].s)
  {
    if "upn" in ci && ci["upn"].Str? {
      LowerIsLower(ci["upn"].s);
    }
  }
}
