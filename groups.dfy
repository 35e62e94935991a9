/**
 * Turning the CERN groups returned by the authorization service into the
 * role dictionaries the roles importer consumes (`_serialize_groups`).
 *
 * The source is a generator: each group is indexed by three keys and the
 * result yielded; the first group that cannot be indexed raises, and the
 * consumer has by then received every role before it.
 */
module Groups {
  import opened Results
  import opened Json

  /**
   * What `group[key]` raises: KeyError for a dictionary without the key,
   * TypeError for any other JSON value (None, a list, a string, a number).
   */
  datatype GroupFault = TypeError | KeyError(key: string)

  /** The three keys a group must have, in the order the role literal reads them. */
  const GroupKeys: seq<string> := ["groupIdentifier", "displayName", "description"]

  /** The keys of a role, in the same order. */
  const RoleKeys: seq<string> := ["id", "name", "description"]

  /** A group the serializer accepts. */
  predicate WellFormed(g: Value)
  {
    g.Object? && forall k :: k in GroupKeys ==> k in g.fields
  }

  /** The role built from one group: `group[key]` read for each key in turn. */
  function SerializeGroup(g: Value): Result<Dict, GroupFault>
  {
    if !g.Object? then Err(TypeError)
    else if "groupIdentifier" !in g.fields then Err(KeyError("groupIdentifier"))
    else if "displayName" !in g.fields then Err(KeyError("displayName"))
    else if "description" !in g.fields then Err(KeyError("description"))
    else
      Ok(map[
        "id" := g.fields["groupIdentifier"],
        "name" := g.fields["displayName"],
        "description" := g.fields["description"]])
  }

  /**
   * A group is serialized exactly when it is a dictionary with the three
   * group keys; the role then has exactly the three role keys, each holding
   * the value of the matching group key. Otherwise the fault is TypeError
   * for a value that is not a dictionary, and else KeyError for the first
   * group key missing.
   */
  lemma SerializeGroupMeaning(g: Value)
    ensures SerializeGroup(g).Ok? <==> WellFormed(g)
    ensures SerializeGroup(g).Ok? ==> SerializeGroup(g).value.Keys == {"id", "name", "description"}
    ensures SerializeGroup(g).Ok? ==>
      forall i :: 0 <= i < 3 ==> SerializeGroup(g).value[RoleKeys[i]] == g.fields[GroupKeys[i]]
    ensures !g.Object? ==> SerializeGroup(g) == Err(TypeError)
    ensures SerializeGroup(g).Err? && g.Object? ==>
      exists i :: 0 <= i < 3 && SerializeGroup(g).error == KeyError(GroupKeys[i]) && GroupKeys[i] !in g.fields
        && forall j :: 0 <= j < i ==> GroupKeys[j] in g.fields
  {
    assert GroupKeys[0] == "groupIdentifier" && GroupKeys[1] == "displayName" && GroupKeys[2] == "description";
    assert RoleKeys[0] == "id" && RoleKeys[1] == "name" && RoleKeys[2] == "description";
  }

  /** The group a role came from, holding exactly the three keys the serializer reads. */
  function GroupOf(role: Dict): (g: Value)
    requires forall k :: k in RoleKeys ==> k in role
    ensures WellFormed(g)
  {
    Object(map[
      "groupIdentifier" := role["id"],
      "displayName" := role["name"],
      "description" := role["description"]])
  }

  /** Every role dictionary with the three role keys is the serialization of some group. */
  lemma SerializeGroupOfRole(role: Dict)
    requires role.Keys == {"id", "name", "description"}
    ensures SerializeGroup(GroupOf(role)) == Ok(role)
  {
    var g := GroupOf(role);
    assert g.fields["groupIdentifier"] == role["id"];
    assert g.fields["displayName"] == role["name"];
    assert g.fields["description"] == role["description"];
    var r := SerializeGroup(g).value;
    assert r == map["id" := role["id"], "name" := role["name"], "description" := role["description"]];
    assert r == role;
  }

  /** Serializing a group only looks at the three keys it reads: extra keys are dropped. */
  lemma SerializeGroupIgnoresOtherKeys(g: Value)
    requires WellFormed(g)
    ensures SerializeGroup(GroupOf(SerializeGroup(g).value)) == SerializeGroup(g)
  {
    SerializeGroupOfRole(SerializeGroup(g).value);
  }

  /** `_serialize_groups`: the roles yielded, then the fault that stopped the generator. */
  function SerializeGroups(groups: seq<Value>): Yielded<Dict, GroupFault>
  {
    if groups == [] then Yielded([], None)
    else
      match SerializeGroup(groups[0])
      case Err(e) => Yielded([], Some(e))
      case Ok(role) =>
        var rest := SerializeGroups(groups[1..]);
        Yielded([role] + rest.items, rest.raised)
  }

  /**
   * One role per group, in order, up to the first group that cannot be
   * serialized; the generator raises that group's fault, and raises nothing
   * only when every group was serialized.
   */
  lemma {:induction false} SerializeGroupsMeaning(groups: seq<Value>)
    ensures |SerializeGroups(groups).items| <= |groups|
    ensures forall i :: 0 <= i < |SerializeGroups(groups).items| ==>
      SerializeGroup(groups[i]) == Ok(SerializeGroups(groups).items[i])
    ensures SerializeGroups(groups).raised.None? <==> |SerializeGroups(groups).items| == |groups|
    ensures SerializeGroups(groups).raised.Some? ==>
      SerializeGroup(groups[|SerializeGroups(groups).items|]) == Err(SerializeGroups(groups).raised.value)
  {
    if groups != [] && SerializeGroup(groups[0]).Ok? {
      SerializeGroupsMeaning(groups[1..]);
      assert forall i :: 1 <= i < |groups| ==> groups[i] == groups[1..][i - 1];
    }
  }

  /** The generator stops at the first group that is not well formed, and only there. */
  lemma SerializeGroupsStopsAtFirstMalformed(groups: seq<Value>)
    ensures SerializeGroups(groups).raised.None? <==> forall i :: 0 <= i < |groups| ==> WellFormed(groups[i])
    ensures forall i :: 0 <= i < |SerializeGroups(groups).items| ==> i < |groups| && WellFormed(groups[i])
    ensures SerializeGroups(groups).raised.Some? ==>
      |SerializeGroups(groups).items| < |groups| && !WellFormed(groups[|SerializeGroups(groups).items|])
  {
    SerializeGroupsMeaning(groups);
  }

  /** Once a batch raises, groups after it are never read. */
  lemma {:induction false} SerializeGroupsStopsForGood(a: seq<Value>, b: seq<Value>)
    requires SerializeGroups(a).raised.Some?
    ensures SerializeGroups(a + b) == SerializeGroups(a)
  {
    var ab := a + b;
    assert ab[0] == a[0] && ab[1..] == a[1..] + b;
    if SerializeGroup(a[0]).Ok? {
      SerializeGroupsStopsForGood(a[1..], b);
    }
  }

  lemma ConsAssociates<T>(h: T, x: seq<T>, y: seq<T>)
    ensures [h] + (x + y) == ([h] + x) + y
  {
  }

  /** The generator reads the first group, then goes on with the rest only if it succeeded. */
  lemma SerializeGroupsCons(g: Value, rest: seq<Value>)
    ensures SerializeGroup(g).Err? ==> SerializeGroups([g] + rest) == Yielded([], Some(SerializeGroup(g).error))
    ensures SerializeGroup(g).Ok? ==>
      SerializeGroups([g] + rest) ==
        Yielded([SerializeGroup(g).value] + SerializeGroups(rest).items, SerializeGroups(rest).raised)
  {
    assert ([g] + rest)[0] == g && ([g] + rest)[1..] == rest;
  }

  /**
   * Consuming the generator over two batches: the roles of the first batch,
   * then, since the first batch raised nothing, those of the second.
   */
  lemma {:induction false} SerializeGroupsAppend(a: seq<Value>, b: seq<Value>)
    requires SerializeGroups(a).raised.None?
    ensures SerializeGroups(a + b).items == SerializeGroups(a).items + SerializeGroups(b).items
    ensures SerializeGroups(a + b).raised == SerializeGroups(b).raised
  {
    if a == [] {
      assert a + b == b;
    } else {
      var t := a[1..];
      assert a == [a[0]] + t;
      assert a + b == [a[0]] + (t + b);
      SerializeGroupsCons(a[0], t);
      SerializeGroupsCons(a[0], t + b);
      SerializeGroupsAppend(t, b);
      ConsAssociates(SerializeGroup(a[0]).value, SerializeGroups(t).items, SerializeGroups(b).items);
    }
  }

  /** The role ids yielded are the group identifiers, in order. */
  lemma RoleIdsAreGroupIdentifiers(groups: seq<Value>)
    requires forall i :: 0 <= i < |groups| ==> WellFormed(groups[i])
    ensures |SerializeGroups(groups).items| == |groups|
    ensures forall i :: 0 <= i < |groups| ==>
      groups[i].Object? && Get(SerializeGroups(groups).items[i], "id") == Get(groups[i].fields, "groupIdentifier")
  {
    SerializeGroupsMeaning(groups);
    var items := SerializeGroups(groups).items;
    forall i | 0 <= i < |groups|
      ensures groups[i].Object? && Get(items[i], "id") == Get(groups[i].fields, "groupIdentifier")
    {
      assert SerializeGroup(groups[i]) == Ok(items[i]);
      assert RoleKeys[0] == "id" && GroupKeys[0] == "groupIdentifier";
    }
  }
}
