/** The task API scenarios: the getters over two stored tasks, and desiring a task then reading it back. */
module TaskTests {
  import opened Wrappers
  import opened Errors
  import opened Models
  import opened EtcdDB
  import TaskDB
  import Records

  /** A well-formed task in the default domain, not yet placed on a cell. */
  function ValidTask(taskGuid: string): (t: Task)
    ensures t.taskGuid == taskGuid && t.domain == "some-domain" && t.cellId == ""
  {
    Task(taskGuid, "some-domain", "", TaskDefinition("docker:///docker.com/docker", "run"))
  }

  /** The two fixture tasks; the second is moved to its own domain and cell. */
  function ExpectedTasks(): (tasks: seq<Task>)
    ensures |tasks| == 2 && tasks[0].taskGuid != tasks[1].taskGuid
    ensures tasks[0].domain != tasks[1].domain && tasks[1].domain == "b-domain"
    ensures tasks[1].cellId == "b-cell" && tasks[0].cellId != "b-cell"
  {
    [ValidTask("a-guid"), ValidTask("b-guid").(domain := "b-domain", cellId := "b-cell")]
  }

  /**
   * Stores the fixture tasks one by one, then reads them back: every task,
   * those of the first task's domain, those on "b-cell", and the first by guid.
   */
  method Getters()
    returns (expected: seq<Task>, all: Result<seq<Task>, Error>, byDomain: Result<seq<Task>, Error>,
             byCell: Result<seq<Task>, Error>, byGuid: Result<Task, Error>)
    ensures |expected| == 2
    ensures all.Success? && multiset(all.value) == multiset(expected)
    ensures byDomain.Success? && byDomain.value == [expected[0]]
    ensures byCell.Success? && byCell.value == [expected[1]]
    ensures byGuid == Success(expected[0])
  {
    var store := new Store(0);
    expected := ExpectedTasks();
    for i := 0 to |expected|
      invariant store.Valid() && store.available
      invariant store.tasks == if i == 0 then map[] else if i == 1 then map["a-guid" := Record(expected[0])]
        else map["a-guid" := Record(expected[0]), "b-guid" := Record(expected[1])]
    {
      store.SetRawTask(expected[i]);
    }
    var m := store.tasks;
    assert !Records.HasMalformed(m);
    assert m.Keys == {"a-guid", "b-guid"};
    assert m["a-guid"].value == expected[0] && m["b-guid"].value == expected[1];
    assert TaskDB.StoredTasks(m, TaskDB.TaskFilter("", "")) == {expected[0], expected[1]};
    assert TaskDB.StoredTasks(m, TaskDB.TaskFilter("some-domain", "")) == {expected[0]};
    assert TaskDB.StoredTasks(m, TaskDB.TaskFilter("", "b-cell")) == {expected[1]};
    all := TaskDB.Tasks(store.available, m);
    byDomain := TaskDB.TasksByDomain(store.available, m, expected[0].domain);
    SingletonOfMultiset(byDomain.value, expected[0]);
    byCell := TaskDB.TasksByCellID(store.available, m, "b-cell");
    SingletonOfMultiset(byCell.value, expected[1]);
    byGuid := TaskDB.TaskByGuid(store.available, m, expected[0].taskGuid);
  }

  lemma SingletonOfMultiset(s: seq<Task>, t: Task)
    requires multiset(s) == multiset{t}
    ensures s == [t]
  {
    assert |s| == |multiset(s)| == 1;
    assert s[0] in multiset(s);
  }

  /** Desiring a task and then looking it up returns a task with the definition that was desired. */
  method DesireThenLookup(start: int, taskGuid: string, domain: string, definition: TaskDefinition)
    returns (err: Option<Error>, found: Result<Task, Error>)
    ensures err == None
    ensures found.Success? && found.value.taskGuid == taskGuid && found.value.domain == domain
    ensures found.value.taskDefinition == definition
  {
    var store := new Store(start);
    err := store.DesireTask(taskGuid, domain, definition);
    found := TaskDB.TaskByGuid(store.available, store.tasks, taskGuid);
  }
}
