/**
 * Reading directory records and comparing dictionaries.
 *
 * A directory (LDAP-style) record maps an attribute name to the list of its
 * values; each value is normally a byte string and the first one is the
 * effective value. `invenio_cern_sync/utils.py` and
 * `invenio_cern_sync/users/utils.py` carry identical copies of
 * `first_or_raise` and `first_or_default`; they are modelled once, here.
 */
module Utils {
  import opened Results
  import opened Json
  import opened Text

  /** One element of an attribute's value list: a byte string, or a str (which has no `decode`). */
  datatype LdapValue = Bytes(data: seq<byte>) | Chars(s: string)

  /** A directory record: attribute name to its list of values. */
  type LdapUser = map<string, seq<LdapValue>>

  /** The exceptions `d[key][0].decode("utf8")` can raise. */
  datatype LookupError =
    | KeyError(key: string)        // the attribute is absent
    | IndexError(key: string)      // the attribute has no value
    | AttributeError(key: string)  // the first value is not a byte string

  /** The attribute is present, has a value, and its first value is a byte string. */
  predicate HasFirst(d: LdapUser, key: string)
  {
    key in d && |d[key]| > 0 && d[key][0].Bytes?
  }

  /** `first_or_raise(d, key)`: the decoded first value, or the exception indexing raises. */
  function FirstOrRaise(d: LdapUser, key: string): (r: Result<string, LookupError>)
    ensures r.Ok? <==> HasFirst(d, key)
    ensures r.Ok? ==> r.value == Decode(d[key][0].data)
    ensures r.Err? ==> r.error.key == key
    ensures r.Err? ==> (r.error.KeyError? <==> key !in d)
    ensures r.Err? ==> (r.error.IndexError? <==> key in d && |d[key]| == 0)
  {
    if key !in d then Err(KeyError(key))
    else if |d[key]| == 0 then Err(IndexError(key))
    else match d[key][0]
      case Bytes(data) => Ok(Decode(data))
      case Chars(_) => Err(AttributeError(key))
  }

  /**
   * `first_or_default(d, key, default)`: the decoded first value, or
   * `default` when indexing raises KeyError, IndexError or AttributeError.
   * (The source's own default for `default` is "".)
   */
  function FirstOrDefault(d: LdapUser, key: string, default: string): string
  {
    if key in d && |d[key]| > 0 then
      match d[key][0]
      case Bytes(data) => Decode(data)
      case Chars(_) => default
    else
      default
  }

  /**
   * first_or_default returns the decoded first value when there is one, and
   * the default exactly when first_or_raise would have raised.
   */
  lemma FirstOrDefaultCases(d: LdapUser, key: string, default: string)
    ensures HasFirst(d, key) ==> FirstOrDefault(d, key, default) == Decode(d[key][0].data)
    ensures !HasFirst(d, key) ==> FirstOrDefault(d, key, default) == default
    ensures FirstOrRaise(d, key).Ok? ==> FirstOrDefault(d, key, default) == FirstOrRaise(d, key).value
    ensures FirstOrRaise(d, key).Err? ==> FirstOrDefault(d, key, default) == default
  {
  }

  /** first_or_raise never substitutes a default: a missing attribute or an empty value list fails. */
  lemma FirstOrRaiseNeverDefaults(d: LdapUser, key: string)
    ensures key !in d ==> FirstOrRaise(d, key) == Err(KeyError(key))
    ensures key in d && d[key] == [] ==> FirstOrRaise(d, key) == Err(IndexError(key))
  {
  }

  /**
   * `_is_different(dict1, dict2)`: some key of either dictionary has unequal
   * `get` values, so a key mapped to None reads as absent.
   */
  predicate IsDifferent(d1: Dict, d2: Dict)
  {
    exists k :: k in d1.Keys + d2.Keys && Get(d1, k) != Get(d2, k)
  }

  /** The dictionary with its None-valued entries dropped: what `get` can tell apart. */
  function DropNulls(d: Dict): (r: Dict)
    ensures forall k :: k in r <==> k in d && d[k] != Null
    ensures forall k :: k in r ==> r[k] == d[k]
  {
    map k | k in d && d[k] != Null :: d[k]
  }

  /**
   * Reference definition: two dictionaries are different exactly when they
   * still differ once None-valued entries are dropped.
   */
  lemma {:induction false} IsDifferentIffDropNullsDiffer(d1: Dict, d2: Dict)
    ensures IsDifferent(d1, d2) <==> DropNulls(d1) != DropNulls(d2)
  {
    var n1, n2 := DropNulls(d1), DropNulls(d2);
    if IsDifferent(d1, d2) {
      var k :| k in d1.Keys + d2.Keys && Get(d1, k) != Get(d2, k);
      if k in n1 && k in n2 {
        assert n1[k] != n2[k];
      } else if k in n1 {
        assert k !in n2;
      } else {
        assert k in n2;
      }
    } else {
      forall k | k in n1 ensures k in n2 && n1[k] == n2[k] {
        assert Get(d1, k) == Get(d2, k);
      }
      forall k | k in n2 ensures k in n1 {
        assert Get(d1, k) == Get(d2, k);
      }
      assert n1 == n2;
    }
  }

  /** _is_different is symmetric and a dictionary never differs from itself. */
  lemma IsDifferentSymmetricIrreflexive(d1: Dict, d2: Dict)
    ensures IsDifferent(d1, d2) == IsDifferent(d2, d1)
    ensures !IsDifferent(d1, d1)
  {
  }

  /** A key mapped to None is indistinguishable from an absent key, but "" is not. */
  lemma NullIsAbsentEmptyIsNot(d: Dict, k: string)
    ensures !IsDifferent(d[k := Null], d - {k})
    ensures IsDifferent(d[k := Str("")], d - {k})
  {
    var with, without := d[k := Null], d - {k};
    forall j | j in with.Keys + without.Keys ensures Get(with, j) == Get(without, j) {
    }
    assert Get(d[k := Str("")], k) != Get(without, k);
  }
}
