/** `useDepartmentStore` (src/stores/department.ts): the cached department list, the
    department last fetched by id, a loading flag and an error message, with six
    actions. Each action takes the outcome of its one awaited client call as
    a parameter and is atomic given that outcome. */
module DepartmentStore {
  import opened Wrappers
  import opened Entities
  import opened EntityList

  // The fixed message each action records when its client call fails.
  const FetchAllMessage := "Failed to fetch departments"
  const FetchByIdMessage := "Failed to fetch department details"
  const SearchMessage := "Failed to search departments"
  const CreateMessage := "Failed to create department"
  const UpdateMessage := "Failed to update department"
  const DeleteMessage := "Failed to delete department"

  class Store {
    var departments: seq<Department>
    var currentDepartment: Option<Department>
    var loading: bool
    var error: Option<string>

    /** A store that has fetched nothing yet. */
    constructor ()
      ensures departments == [] && currentDepartment == None
      ensures !loading && error == None
    {
      departments := [];
      currentDepartment := None;
      loading := false;
      error := None;
    }

    /** The prologue of every action: the call is in flight and the previous
        error is cleared; the cached data is untouched. */
    method Begin()
      modifies this
      ensures loading && error == None
      ensures departments == old(departments) && currentDepartment == old(currentDepartment)
    {
      loading := true;
      error := None;
    }

    /** Replaces the list with the fetched one; a failure is recorded and
        swallowed. */
    method FetchAllDepartments(outcome: Result<seq<Department>>)
      modifies this
      ensures !loading && currentDepartment == old(currentDepartment)
      ensures outcome.Ok? ==> departments == outcome.value && error == None
      ensures outcome.Err? ==> departments == old(departments) && error == Some(FetchAllMessage)
    {
      Begin();
      match outcome {
        case Ok(fetched) => departments := fetched;
        case Err(_) => error := Some(FetchAllMessage);
      }
      loading := false;
    }

    /** Replaces the current department with the fetched one; a failure is
        recorded and swallowed. `id` only addresses the client call. */
    method FetchDepartmentById(id: int, outcome: Result<Department>)
      modifies this
      ensures !loading && departments == old(departments)
      ensures outcome.Ok? ==> currentDepartment == Some(outcome.value) && error == None
      ensures outcome.Err? ==> currentDepartment == old(currentDepartment) && error == Some(FetchByIdMessage)
    {
      Begin();
      match outcome {
        case Ok(fetched) => currentDepartment := Some(fetched);
        case Err(_) => error := Some(FetchByIdMessage);
      }
      loading := false;
    }

    /** Replaces the list with the search hits; a failure is recorded and
        swallowed. `name` only addresses the client call. */
    method SearchDepartments(name: string, outcome: Result<seq<Department>>)
      modifies this
      ensures !loading && currentDepartment == old(currentDepartment)
      ensures outcome.Ok? ==> departments == outcome.value && error == None
      ensures outcome.Err? ==> departments == old(departments) && error == Some(SearchMessage)
    {
      Begin();
      match outcome {
        case Ok(found) => departments := found;
        case Err(_) => error := Some(SearchMessage);
      }
      loading := false;
    }

    /** Appends the created department and returns it; a failure is recorded
        and re-raised. `data` only forms the client call. */
    method CreateDepartment(data: DepartmentRequest, outcome: Result<Department>) returns (r: Result<Department>)
      modifies this
      ensures r == outcome
      ensures !loading && currentDepartment == old(currentDepartment)
      ensures outcome.Ok? ==> departments == old(departments) + [outcome.value] && error == None
      ensures outcome.Err? ==> departments == old(departments) && error == Some(CreateMessage)
    {
      Begin();
      match outcome {
        case Ok(created) =>
          departments := departments + [created];
          r := Ok(created);
        case Err(e) =>
          error := Some(CreateMessage);
          r := Err(e);
      }
      loading := false;
    }

    /** Writes the updated department over the first entry carrying `id`, if
        any, and returns it; a failure is recorded and re-raised. */
    method UpdateDepartment(id: int, data: DepartmentRequest, outcome: Result<Department>) returns (r: Result<Department>)
      modifies this
      ensures r == outcome
      ensures !loading && currentDepartment == old(currentDepartment)
      ensures outcome.Ok? ==> departments == ReplaceFirst(old(departments), DepartmentId, id, outcome.value) && error == None
      ensures outcome.Err? ==> departments == old(departments) && error == Some(UpdateMessage)
    {
      Begin();
      match outcome {
        case Ok(updated) =>
          WriteAtFindIndex(departments, DepartmentId, id, updated);
          var index := FindIndex(departments, DepartmentId, id);
          if index != -1 {
            departments := departments[index := updated];
          }
          r := Ok(updated);
        case Err(e) =>
          error := Some(UpdateMessage);
          r := Err(e);
      }
      loading := false;
    }

    /** Drops every entry carrying `id` (the current department is left alone);
        a failure is recorded and re-raised. */
    method DeleteDepartment(id: int, outcome: Result<()>) returns (r: Result<()>)
      modifies this
      ensures r == outcome
      ensures !loading && currentDepartment == old(currentDepartment)
      ensures outcome.Ok? ==> departments == RemoveAll(old(departments), DepartmentId, id) && error == None
      ensures outcome.Ok? ==> NoMatch(departments, DepartmentId, id)
      ensures outcome.Err? ==> departments == old(departments) && error == Some(DeleteMessage)
    {
      Begin();
      match outcome {
        case Ok(done) =>
          departments := RemoveAll(departments, DepartmentId, id);
          r := Ok(done);
        case Err(e) =>
          error := Some(DeleteMessage);
          r := Err(e);
      }
      loading := false;
    }
  }
}
