/** The desired-LRP reads: lookup by process guid and listing, optionally by domain. */
module DesiredLRPDB {
  import opened Wrappers
  import opened Errors
  import opened Models
  import Records

  /** Desired LRPs are stored under their process guid. */
  predicate KeyedByProcessGuid(m: map<string, Stored<DesiredLRP>>)
  {
    forall g :: g in m && m[g].Record? ==> m[g].value.processGuid == g
  }

  /** An empty domain in the filter selects every domain. */
  predicate InDomain(domain: string, d: DesiredLRP)
  {
    domain == "" || d.domain == domain
  }

  /** The decodable desired LRPs a listing with this domain filter must return. */
  function StoredDesiredLRPs(m: map<string, Stored<DesiredLRP>>, domain: string): set<DesiredLRP>
  {
    set g | g in m && m[g].Record? && InDomain(domain, m[g].value) :: m[g].value
  }

  /** The domain filter selects exactly the stored desired LRPs of that domain. */
  lemma DomainFilterSelects(m: map<string, Stored<DesiredLRP>>, domain: string, d: DesiredLRP)
    requires domain != ""
    ensures d in StoredDesiredLRPs(m, domain) <==> d in StoredDesiredLRPs(m, "") && d.domain == domain
  {
  }

  function DesiredLRPByProcessGuid(available: bool, m: map<string, Stored<DesiredLRP>>, processGuid: string): (r: Result<DesiredLRP, Error>)
    ensures !available ==> r == Failure(ErrUnknownError)
    ensures available && processGuid !in m ==> r == Failure(ErrResourceNotFound)
    ensures available && processGuid in m && m[processGuid].Malformed? ==> r == Failure(ErrDeserializeJSON)
    ensures available && processGuid in m && m[processGuid].Record? ==> r == Success(m[processGuid].value)
    ensures r.Success? ==> available && processGuid in m && m[processGuid] == Record(r.value)
  {
    Records.Lookup(available, m, processGuid)
  }

  /**
   * Lists the desired LRPs of a domain (every domain for ""): exactly the stored
   * ones, each once; an unavailable backend or any malformed entry is an error.
   */
  method DesiredLRPs(available: bool, m: map<string, Stored<DesiredLRP>>, domain: string) returns (r: Result<seq<DesiredLRP>, Error>)
    requires KeyedByProcessGuid(m)
    ensures !available ==> r == Failure(ErrUnknownError)
    ensures available && Records.HasMalformed(m) ==> r == Failure(ErrDeserializeJSON)
    ensures available && !Records.HasMalformed(m) ==> r.Success? && multiset(r.value) == multiset(StoredDesiredLRPs(m, domain))
    ensures available && m == map[] ==> r == Success([])
  {
    var keep := (d: DesiredLRP) => InDomain(domain, d);
    r := Records.List(available, m, keep, (d: DesiredLRP) => d.processGuid);
    assert Records.Matching(m, keep) == StoredDesiredLRPs(m, domain);
    if available && m == map[] {
      assert StoredDesiredLRPs(m, domain) == {};
      assert |r.value| == |multiset(r.value)| == 0;
    }
  }
}
