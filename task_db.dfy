/** The task reads: every task, tasks of a domain or of a cell, and lookup by guid. */
module TaskDB {
  import opened Wrappers
  import opened Errors
  import opened Models
  import Records

  /** Tasks are stored under their task guid. */
  predicate KeyedByTaskGuid(m: map<string, Stored<Task>>)
  {
    forall g :: g in m && m[g].Record? ==> m[g].value.taskGuid == g
  }

  /** A task filter; an empty field does not restrict. */
  datatype TaskFilter = TaskFilter(domain: string, cellId: string)

  predicate Selects(f: TaskFilter, t: Task)
  {
    (f.domain == "" || t.domain == f.domain) && (f.cellId == "" || t.cellId == f.cellId)
  }

  /** The decodable tasks a listing with this filter must return. */
  function StoredTasks(m: map<string, Stored<Task>>, f: TaskFilter): set<Task>
  {
    set g | g in m && m[g].Record? && Selects(f, m[g].value) :: m[g].value
  }

  /** Filtering by domain or by cell keeps exactly the stored tasks with that domain or cell. */
  lemma FiltersSelect(m: map<string, Stored<Task>>, domain: string, cellId: string, t: Task)
    requires domain != "" && cellId != ""
    ensures t in StoredTasks(m, TaskFilter(domain, "")) <==> t in StoredTasks(m, TaskFilter("", "")) && t.domain == domain
    ensures t in StoredTasks(m, TaskFilter("", cellId)) <==> t in StoredTasks(m, TaskFilter("", "")) && t.cellId == cellId
  {
  }

  method TasksByFilter(available: bool, m: map<string, Stored<Task>>, f: TaskFilter) returns (r: Result<seq<Task>, Error>)
    requires KeyedByTaskGuid(m)
    ensures !available ==> r == Failure(ErrUnknownError)
    ensures available && Records.HasMalformed(m) ==> r == Failure(ErrDeserializeJSON)
    ensures available && !Records.HasMalformed(m) ==> r.Success? && multiset(r.value) == multiset(StoredTasks(m, f))
  {
    var keep := (t: Task) => Selects(f, t);
    r := Records.List(available, m, keep, (t: Task) => t.taskGuid);
    assert Records.Matching(m, keep) == StoredTasks(m, f);
  }

  /** Every stored task, each once. */
  method Tasks(available: bool, m: map<string, Stored<Task>>) returns (r: Result<seq<Task>, Error>)
    requires KeyedByTaskGuid(m)
    ensures !available ==> r == Failure(ErrUnknownError)
    ensures available && Records.HasMalformed(m) ==> r == Failure(ErrDeserializeJSON)
    ensures available && !Records.HasMalformed(m) ==> r.Success? && multiset(r.value) == multiset(StoredTasks(m, TaskFilter("", "")))
    ensures r.Success? ==> forall g :: g in m && m[g].Record? ==> m[g].value in r.value
  {
    r := TasksByFilter(available, m, TaskFilter("", ""));
    if r.Success? {
      forall g | g in m && m[g].Record?
        ensures m[g].value in r.value
      {
        assert m[g].value in StoredTasks(m, TaskFilter("", ""));
        assert m[g].value in multiset(r.value);
      }
    }
  }

  /** The stored tasks of one domain, each once. */
  method TasksByDomain(available: bool, m: map<string, Stored<Task>>, domain: string) returns (r: Result<seq<Task>, Error>)
    requires KeyedByTaskGuid(m)
    ensures !available ==> r == Failure(ErrUnknownError)
    ensures available && Records.HasMalformed(m) ==> r == Failure(ErrDeserializeJSON)
    ensures available && !Records.HasMalformed(m) ==> r.Success? && multiset(r.value) == multiset(StoredTasks(m, TaskFilter(domain, "")))
    ensures r.Success? && domain != "" ==> forall t :: t in r.value ==> t.domain == domain
  {
    r := TasksByFilter(available, m, TaskFilter(domain, ""));
    if r.Success? && domain != "" {
      forall t | t in r.value
        ensures t.domain == domain
      {
        assert t in multiset(r.value);
      }
    }
  }

  /** The stored tasks placed on one cell, each once. */
  method TasksByCellID(available: bool, m: map<string, Stored<Task>>, cellId: string) returns (r: Result<seq<Task>, Error>)
    requires KeyedByTaskGuid(m)
    ensures !available ==> r == Failure(ErrUnknownError)
    ensures available && Records.HasMalformed(m) ==> r == Failure(ErrDeserializeJSON)
    ensures available && !Records.HasMalformed(m) ==> r.Success? && multiset(r.value) == multiset(StoredTasks(m, TaskFilter("", cellId)))
    ensures r.Success? && cellId != "" ==> forall t :: t in r.value ==> t.cellId == cellId
  {
    r := TasksByFilter(available, m, TaskFilter("", cellId));
    if r.Success? && cellId != "" {
      forall t | t in r.value
        ensures t.cellId == cellId
      {
        assert t in multiset(r.value);
      }
    }
  }

  function TaskByGuid(available: bool, m: map<string, Stored<Task>>, taskGuid: string): (r: Result<Task, Error>)
    ensures !available ==> r == Failure(ErrUnknownError)
    ensures available && taskGuid !in m ==> r == Failure(ErrResourceNotFound)
    ensures available && taskGuid in m && m[taskGuid].Malformed? ==> r == Failure(ErrDeserializeJSON)
    ensures available && taskGuid in m && m[taskGuid].Record? ==> r == Success(m[taskGuid].value)
    ensures r.Success? ==> available && taskGuid in m && m[taskGuid] == Record(r.value)
  {
    Records.Lookup(available, m, taskGuid)
  }
}
