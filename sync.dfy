/**
 * Matching canonical user records against the local accounts
 * (`invenio_cern_sync/users/sync.py`, `_update_existing`).
 *
 * Each record is looked up first by person id (the identity id), then by the
 * pair (email, username). Records for which no user and identity were both
 * found are collected, in input order, for insertion after the single commit.
 * In this revision the update of a matched account is commented out, so no
 * row changes.
 *
 * As written the loop reads the key "person_id", which the serializer does
 * not emit (it emits user_identity_id), so every record raises KeyError;
 * UpdateExistingAsWritten models that, and the rest of the module uses the
 * person id the serializer does emit.
 *
 * The fallback branch queries the identity table by the same person id that
 * has just matched nothing, so it can never succeed: a record matched only by
 * (email, username) still ends up missing. LoginOnlyMatchIsMissing states
 * this; the branch looks unfinished and is modelled as written.
 */
module Sync {
  import opened Results
  import opened Json
  import Utils
  import opened Queries
  import opened Accounts
  import Serializer

  datatype SyncFault =
    | MultipleResultsFound
    | KeyError(key: string)

  /** What the loop concludes about one record. */
  datatype Outcome = Found(user: nat, identity: nat) | Missing | Raised(fault: SyncFault)

  /** `UserIdentity.query.filter_by(id=...)`. */
  function IdentityWithId(id: string): IdentityRow -> bool
  {
    (i: IdentityRow) => i.id == id
  }

  /** `User.query.filter_by(email=..., username=...)`. */
  function UserWithLogin(email: string, username: string): UserRow -> bool
  {
    (u: UserRow) => u.email == email && u.username == username
  }

  /** The `user_identity.user` relationship. */
  function UserWithId(id: nat): UserRow -> bool
  {
    (u: UserRow) => u.id == id
  }

  function Classify(t: Tables, rec: InvenioUser): Outcome
  {
    match OneOrNone(t.identities, IdentityWithId(rec.userIdentityId))
    case ManyRows => Raised(MultipleResultsFound)
    case OneRow(i) =>
      (match First(t.users, UserWithId(t.identities[i].idUser))
       case Some(u) => Found(u, i)
       case None => Missing)
    case NoRow =>
      match OneOrNone(t.users, UserWithLogin(rec.email, rec.username))
      case ManyRows => Raised(MultipleResultsFound)
      case NoRow => Missing
      case OneRow(u) =>
        match First(t.identities, IdentityWithId(rec.userIdentityId))
        case Some(i) => Found(u, i)
        case None => Missing
  }

  /**
   * The `missing` list the loop builds over `recs` when record x is
   * classified as `cls(x)`, or the exception that stopped it.
   */
  function Collect(cls: InvenioUser -> Outcome, recs: seq<InvenioUser>): Result<seq<InvenioUser>, SyncFault>
    decreases |recs|
  {
    if recs == [] then Ok([])
    else
      match Collect(cls, recs[..|recs| - 1])
      case Err(e) => Err(e)
      case Ok(m) =>
        match cls(recs[|recs| - 1])
        case Raised(e) => Err(e)
        case Missing => Ok(m + [recs[|recs| - 1]])
        case Found(_, _) => Ok(m)
  }

  /** The classification the loop applies against the tables `t`. */
  function ClassifyIn(t: Tables): InvenioUser -> Outcome
  {
    (rec: InvenioUser) => Classify(t, rec)
  }

  /** The `missing` list after the loop has seen `recs`, or the exception that stopped it. */
  function MissingOf(t: Tables, recs: seq<InvenioUser>): Result<seq<InvenioUser>, SyncFault>
  {
    Collect(ClassifyIn(t), recs)
  }

  /** Found means that the identity found carries the record's person id and the user exists. */
  lemma FoundMeansIdentityAndUser(t: Tables, rec: InvenioUser)
    ensures Classify(t, rec).Found? ==>
      Classify(t, rec).identity < |t.identities|
      && t.identities[Classify(t, rec).identity].id == rec.userIdentityId
      && Classify(t, rec).user < |t.users|
  {
  }

  /**
   * The lookup by person id comes first: when an identity carries the
   * record's person id, email and username are never consulted.
   */
  lemma PersonIdTakesPrecedence(t: Tables, rec: InvenioUser, email: string, username: string)
    requires exists i :: 0 <= i < |t.identities| && t.identities[i].id == rec.userIdentityId
    ensures Classify(t, rec) == Classify(t, rec.(email := email, username := username))
  {
  }

  /**
   * In consistent tables a record whose person id matches an existing
   * identity is never missing: it is found, or the lookup raises because
   * several identities carry that id.
   */
  lemma PersonIdMatchNeverMissing(t: Tables, rec: InvenioUser)
    requires Consistent(t)
    requires exists i :: 0 <= i < |t.identities| && t.identities[i].id == rec.userIdentityId
    ensures Classify(t, rec).Found? || Classify(t, rec) == Raised(MultipleResultsFound)
  {
    var i :| 0 <= i < |t.identities| && t.identities[i].id == rec.userIdentityId;
    assert IdentityWithId(rec.userIdentityId)(t.identities[i]);
    var m := OneOrNone(t.identities, IdentityWithId(rec.userIdentityId));
    if m.OneRow? {
      var u := t.identities[m.index].idUser;
      assert UserWithId(u)(t.users[u]);
    }
  }

  /**
   * The fallback re-queries the person id that has just matched nothing, so
   * a record whose person id is unknown is never found, even when exactly
   * one user has its email and username.
   */
  lemma LoginOnlyMatchIsMissing(t: Tables, rec: InvenioUser)
    requires forall i :: 0 <= i < |t.identities| ==> t.identities[i].id != rec.userIdentityId
    ensures !Classify(t, rec).Found?
    ensures OneOrNone(t.users, UserWithLogin(rec.email, rec.username)).ManyRows?
      <==> Classify(t, rec) == Raised(MultipleResultsFound)
    ensures OneOrNone(t.users, UserWithLogin(rec.email, rec.username)).ManyRows? || Classify(t, rec) == Missing
  {
    assert OneOrNone(t.identities, IdentityWithId(rec.userIdentityId)).NoRow?;
    assert First(t.identities, IdentityWithId(rec.userIdentityId)).None?;
  }

  /**
   * The loop over `a + b` is the loop over `a` followed by the loop over
   * `b`: the missing lists concatenate, so `missing` keeps input order, and
   * the first exception wins.
   */
  lemma {:induction false} CollectAppend(cls: InvenioUser -> Outcome, a: seq<InvenioUser>, b: seq<InvenioUser>)
    ensures Collect(cls, a + b) ==
      match Collect(cls, a)
      case Err(e) => Err(e)
      case Ok(m1) => (
        match Collect(cls, b)
        case Err(e) => Err(e)
        case Ok(m2) => Ok(m1 + m2))
    decreases |b|
  {
    if b == [] {
      assert a + b == a;
      assert Collect(cls, b) == Ok([]);
      if Collect(cls, a).Ok? {
        assert Collect(cls, a).value + [] == Collect(cls, a).value;
      }
    } else {
      var b' := b[..|b| - 1];
      var x := b[|b| - 1];
      assert (a + b)[..|a + b| - 1] == a + b';
      assert (a + b)[|a + b| - 1] == x;
      CollectAppend(cls, a, b');
      match Collect(cls, a)
      case Err(e) =>
      case Ok(m1) =>
        match Collect(cls, b')
        case Err(e) =>
        case Ok(m2) =>
          match cls(x)
          case Raised(e) =>
          case Missing =>
            assert m1 + (m2 + [x]) == (m1 + m2) + [x];
          case Found(_, _) =>
    }
  }

  /** The loop's last step: the record at the end extends the list, or raises. */
  lemma CollectLast(cls: InvenioUser -> Outcome, recs: seq<InvenioUser>)
    requires recs != []
    ensures var init, last := recs[..|recs| - 1], recs[|recs| - 1];
      && (Collect(cls, recs).Ok? <==> Collect(cls, init).Ok? && !cls(last).Raised?)
      && (Collect(cls, recs).Ok? ==>
            Collect(cls, recs).value == Collect(cls, init).value + (if cls(last).Missing? then [last] else []))
  {
    var init, last := recs[..|recs| - 1], recs[|recs| - 1];
    if Collect(cls, init).Ok? && cls(last).Found? {
      assert Collect(cls, init).value + [] == Collect(cls, init).value;
    }
  }

  /** The loop completes exactly when no record raises. */
  lemma {:induction false} CollectCompletes(cls: InvenioUser -> Outcome, recs: seq<InvenioUser>)
    ensures Collect(cls, recs).Ok? <==> forall j :: 0 <= j < |recs| ==> !cls(recs[j]).Raised?
    decreases |recs|
  {
    if recs != [] {
      var init := recs[..|recs| - 1];
      CollectCompletes(cls, init);
      CollectLast(cls, recs);
      assert forall j :: 0 <= j < |init| ==> recs[j] == init[j];
    }
  }

  /** When the loop completes, every record in `missing` is an input record classified as missing. */
  lemma {:induction false} CollectSound(cls: InvenioUser -> Outcome, recs: seq<InvenioUser>)
    requires Collect(cls, recs).Ok?
    ensures forall x :: x in Collect(cls, recs).value ==> x in recs && cls(x).Missing?
    decreases |recs|
  {
    if recs != [] {
      var init := recs[..|recs| - 1];
      CollectLast(cls, recs);
      CollectSound(cls, init);
      assert forall x :: x in init ==> x in recs;
    }
  }

  /** When the loop completes, every input record classified as missing is in `missing`. */
  lemma {:induction false} CollectComplete(cls: InvenioUser -> Outcome, recs: seq<InvenioUser>)
    requires Collect(cls, recs).Ok?
    ensures forall j :: 0 <= j < |recs| && cls(recs[j]).Missing? ==> recs[j] in Collect(cls, recs).value
    decreases |recs|
  {
    if recs != [] {
      var init := recs[..|recs| - 1];
      CollectLast(cls, recs);
      CollectComplete(cls, init);
      assert forall j :: 0 <= j < |init| ==> recs[j] == init[j];
    }
  }

  /** `_update_existing` as written: reading `invenio_user["person_id"]` raises KeyError on the first record. */
  function MissingOfAsWritten(t: Tables, recs: seq<InvenioUser>): (r: Result<seq<InvenioUser>, SyncFault>)
    ensures recs == [] ==> r == Ok([])
    ensures recs != [] ==> r == Err(KeyError("person_id"))
  {
    if recs == [] then Ok([]) else Err(KeyError("person_id"))
  }

  /** The loop above with the person id taken from user_identity_id, so every record can be classified. */
  lemma PersonIdKeyFixed(t: Tables, rec: InvenioUser)
    requires Consistent(t)
    requires exists i :: 0 <= i < |t.identities| && t.identities[i].id == rec.userIdentityId
    requires forall i, j :: 0 <= i < j < |t.identities| ==> t.identities[i].id != t.identities[j].id
    ensures MissingOfAsWritten(t, [rec]) == Err(KeyError("person_id"))
    ensures MissingOf(t, [rec]) == Ok([])
  {
    PersonIdMatchNeverMissing(t, rec);
    CollectLast(ClassifyIn(t), [rec]);
    assert [rec][..0] == [];
    assert ClassifyIn(t)(rec) == Classify(t, rec);
  }

  /**
   * `_update_existing` as written, on the records the serializer yields: the
   * first record raises KeyError and nothing is committed.
   */
  method UpdateExistingAsWritten(store: Store, records: seq<InvenioUser>) returns (r: Result<seq<InvenioUser>, SyncFault>)
    modifies store`commits
    ensures r == MissingOfAsWritten(store.Snapshot(), records)
    ensures store.commits == old(store.commits) + (if r.Ok? then 1 else 0)
  {
    if records != [] {
      // `invenio_user["person_id"]` on the first record: KeyError
      return Err(KeyError("person_id"));
    }
    store.commits := store.commits + 1;
    r := Ok([]);
  }

  /** An exception on record i ends the loop with that exception, whatever follows. */
  lemma FirstRaiseWins(cls: InvenioUser -> Outcome, recs: seq<InvenioUser>, i: nat)
    requires i < |recs|
    requires Collect(cls, recs[..i]).Ok?
    requires cls(recs[i]).Raised?
    ensures Collect(cls, recs) == Err(cls(recs[i]).fault)
  {
    assert recs[..i + 1][..i] == recs[..i];
    CollectAppend(cls, recs[..i + 1], recs[i + 1..]);
    assert recs[..i + 1] + recs[i + 1..] == recs;
  }

  /** One more record that does not raise extends the missing list when it is classified as missing. */
  lemma CollectStep(cls: InvenioUser -> Outcome, recs: seq<InvenioUser>, i: nat, m: seq<InvenioUser>)
    requires i < |recs|
    requires Collect(cls, recs[..i]) == Ok(m)
    requires !cls(recs[i]).Raised?
    ensures Collect(cls, recs[..i + 1]) == Ok(if cls(recs[i]).Missing? then m + [recs[i]] else m)
  {
    assert recs[..i + 1][..i] == recs[..i];
  }

  /**
   * The body of the loop for one record: the two lookups, and whether both a
   * user and an identity were found.
   */
  method LookUp(t: Tables, rec: InvenioUser) returns (r: Outcome)
    ensures r == Classify(t, rec)
  {
    var user: Option<nat> := None;
    var identity: Option<nat> := None;
    match OneOrNone(t.identities, IdentityWithId(rec.userIdentityId)) {
      case ManyRows =>
        return Raised(MultipleResultsFound);
      case OneRow(found) =>
        identity := Some(found);
        user := First(t.users, UserWithId(t.identities[found].idUser));
      case NoRow =>
        match OneOrNone(t.users, UserWithLogin(rec.email, rec.username)) {
          case ManyRows =>
            return Raised(MultipleResultsFound);
          case NoRow =>
          case OneRow(found) =>
            user := Some(found);
            identity := First(t.identities, IdentityWithId(rec.userIdentityId));
        }
    }
    if user.Some? && identity.Some? {
      r := Found(user.value, identity.value);
    } else {
      r := Missing;
    }
  }

  /**
   * `_update_existing`: classifies each serialized record, collects the
   * missing ones, changes no row, and commits once after the loop, before
   * the missing records are returned for insertion.
   */
  method UpdateExisting(store: Store, ldapUsers: seq<Utils.LdapUser>, pm: Utils.LdapUser -> Dict, em: Utils.LdapUser -> Dict)
    returns (r: Result<seq<InvenioUser>, SyncFault>)
    modifies store`commits
    ensures r == MissingOf(old(store.Snapshot()), Serializer.SerializeLdapUsers(ldapUsers, pm, em))
    ensures store.Snapshot() == old(store.Snapshot())
    ensures store.commits == old(store.commits) + (if r.Ok? then 1 else 0)
  {
    var t := store.Snapshot();
    var records := Serializer.SerializeLdapUsers(ldapUsers, pm, em);
    ghost var cls := ClassifyIn(t);
    var missing := [];
    var i := 0;
    while i < |records|
      invariant 0 <= i <= |records|
      invariant Collect(cls, records[..i]) == Ok(missing)
      invariant store.commits == old(store.commits)
      invariant t == old(store.Snapshot()) == store.Snapshot()
    {
      var rec := records[i];
      var outcome := LookUp(t, rec);
      assert cls(rec) == outcome;
      if outcome.Raised? {
        FirstRaiseWins(cls, records, i);
        return Err(outcome.fault);
      }
      CollectStep(cls, records, i, missing);
      if !outcome.Found? {
        // the update of a found account is commented out in this revision
        missing := missing + [rec];
      }
      i := i + 1;
    }
    assert records[..i] == records;
    store.commits := store.commits + 1;
    r := Ok(missing);
  }
}
