/**
 * Reads over a directory of stored values that may be malformed: a lookup by
 * key and a filtered listing, with the error classification the store uses
 * (backend unavailable, not found, undecodable).
 */
module Records {
  import opened Wrappers
  import opened Errors
  import opened Models

  /** Every decodable value is stored under its own guid. */
  predicate KeyedBy<T>(m: map<string, Stored<T>>, guidOf: T -> string)
  {
    forall k :: k in m && m[k].Record? ==> guidOf(m[k].value) == k
  }

  predicate HasMalformed<T>(m: map<string, Stored<T>>)
  {
    exists k :: k in m && m[k].Malformed?
  }

  /** The decodable values stored under the keys in `keys` that `keep` selects. */
  function MatchingIn<T(==)>(m: map<string, Stored<T>>, keys: set<string>, keep: T -> bool): set<T>
  {
    set k | k in keys && k in m && m[k].Record? && keep(m[k].value) :: m[k].value
  }

  /** The decodable values of the whole directory that `keep` selects. */
  function Matching<T(==)>(m: map<string, Stored<T>>, keep: T -> bool): set<T>
  {
    MatchingIn(m, m.Keys, keep)
  }

  /**
   * Reads one key. An unavailable backend gives ErrUnknownError, a missing key
   * ErrResourceNotFound and an undecodable value ErrDeserializeJSON; otherwise
   * the stored value comes back unchanged.
   */
  function Lookup<T(==)>(available: bool, m: map<string, Stored<T>>, key: string): (r: Result<T, Error>)
    ensures !available ==> r == Failure(ErrUnknownError)
    ensures available && key !in m ==> r == Failure(ErrResourceNotFound)
    ensures available && key in m && m[key].Malformed? ==> r == Failure(ErrDeserializeJSON)
    ensures available && key in m && m[key].Record? ==> r == Success(m[key].value)
    ensures r.Success? ==> available && key in m && m[key] == Record(r.value)
  {
    if !available then Failure(ErrUnknownError)
    else if key !in m then Failure(ErrResourceNotFound)
    else match m[key]
      case Record(v) => Success(v)
      case Malformed => Failure(ErrDeserializeJSON)
  }

  /** A value just written is read back as it was written. */
  lemma LookupAfterWrite<T>(m: map<string, Stored<T>>, key: string, v: T)
    ensures Lookup(true, m[key := Record(v)], key) == Success(v)
  {
  }

  /** "Not found" and "could not decode" are told apart: not even Equal compares them as alike. */
  lemma NotFoundIsNotMalformed()
    ensures ErrResourceNotFound != ErrDeserializeJSON && ErrResourceNotFound != ErrUnknownError
    ensures !Equal(ErrResourceNotFound, Typed(ErrDeserializeJSON))
    ensures !Equal(ErrResourceNotFound, Typed(ErrUnknownError))
    ensures !Equal(ErrDeserializeJSON, Typed(ErrUnknownError))
  {
  }

  lemma MatchingInStep<T>(m: map<string, Stored<T>>, keys: set<string>, k: string, v: T, keep: T -> bool)
    requires k in m && m[k] == Record(v)
    ensures MatchingIn(m, keys + {k}, keep) == MatchingIn(m, keys, keep) + (if keep(v) then {v} else {})
  {
  }

  lemma MultisetOfSetAdd<T>(s: set<T>, v: T)
    requires v !in s
    ensures multiset(s + {v}) == multiset(s) + multiset{v}
  {
  }

  /** One step of the listing loop keeps its invariants. */
  lemma ListStep<T>(m: map<string, Stored<T>>, seen: set<string>, k: string, v: T, keep: T -> bool, guidOf: T -> string, listed: seq<T>)
    requires KeyedBy(m, guidOf) && k in m && m[k] == Record(v) && k !in seen
    requires multiset(listed) == multiset(MatchingIn(m, seen, keep))
    ensures multiset(if keep(v) then listed + [v] else listed) == multiset(MatchingIn(m, seen + {k}, keep))
  {
    MatchingInStep(m, seen, k, v, keep);
    if keep(v) {
      assert guidOf(v) == k;
      assert v !in MatchingIn(m, seen, keep);
      MultisetOfSetAdd(MatchingIn(m, seen, keep), v);
      assert multiset(listed + [v]) == multiset(listed) + multiset{v};
    }
  }

  /**
   * Lists the directory. An unavailable backend gives ErrUnknownError; a single
   * malformed entry makes the whole listing fail with ErrDeserializeJSON;
   * otherwise the result holds exactly the stored values `keep` selects, each once.
   */
  method List<T(==)>(available: bool, m: map<string, Stored<T>>, keep: T -> bool, guidOf: T -> string) returns (r: Result<seq<T>, Error>)
    requires KeyedBy(m, guidOf)
    ensures !available ==> r == Failure(ErrUnknownError)
    ensures available && HasMalformed(m) ==> r == Failure(ErrDeserializeJSON)
    ensures available && !HasMalformed(m) ==> r.Success? && multiset(r.value) == multiset(Matching(m, keep))
  {
    if !available {
      return Failure(ErrUnknownError);
    }
    var todo := m.Keys;
    var listed: seq<T> := [];
    ghost var seen: set<string> := {};
    while todo != {}
      invariant todo + seen == m.Keys && todo !! seen
      invariant forall k :: k in seen ==> m[k].Record?
      invariant multiset(listed) == multiset(MatchingIn(m, seen, keep))
      decreases |todo|
    {
      var k :| k in todo;
      if m[k].Malformed? {
        return Failure(ErrDeserializeJSON);
      }
      var v := m[k].value;
      ListStep(m, seen, k, v, keep, guidOf, listed);
      if keep(v) {
        listed := listed + [v];
      }
      todo := todo - {k};
      seen := seen + {k};
    }
    assert seen == m.Keys;
    assert !HasMalformed(m);
    return Success(listed);
  }
}
