/** `useStaffStore` (src/stores/staff.ts): the cached staff member list, the
    staff member last fetched by id, a loading flag and an error message, with six
    actions. Each action takes the outcome of its one awaited client call as
    a parameter and is atomic given that outcome. */
module StaffStore {
  import opened Wrappers
  import opened Entities
  import opened EntityList

  // The fixed message each action records when its client call fails.
  const FetchAllMessage := "Failed to fetch staff list"
  const FetchByIdMessage := "Failed to fetch staff details"
  const SearchMessage := "Failed to search staff"
  const CreateMessage := "Failed to create staff"
  const UpdateMessage := "Failed to update staff"
  const DeleteMessage := "Failed to delete staff"

  class Store {
    var staffList: seq<Staff>
    var currentStaff: Option<Staff>
    var loading: bool
    var error: Option<string>

    /** A store that has fetched nothing yet. */
    constructor ()
      ensures staffList == [] && currentStaff == None
      ensures !loading && error == None
    {
      staffList := [];
      currentStaff := None;
      loading := false;
      error := None;
    }

    /** The prologue of every action: the call is in flight and the previous
        error is cleared; the cached data is untouched. */
    method Begin()
      modifies this
      ensures loading && error == None
      ensures staffList == old(staffList) && currentStaff == old(currentStaff)
    {
      loading := true;
      error := None;
    }

    /** Replaces the list with the fetched one; a failure is recorded and
        swallowed. */
    method FetchAllStaff(outcome: Result<seq<Staff>>)
      modifies this
      ensures !loading && currentStaff == old(currentStaff)
      ensures outcome.Ok? ==> staffList == outcome.value && error == None
      ensures outcome.Err? ==> staffList == old(staffList) && error == Some(FetchAllMessage)
    {
      Begin();
      match outcome {
        case Ok(fetched) => staffList := fetched;
        case Err(_) => error := Some(FetchAllMessage);
      }
      loading := false;
    }

    /** Replaces the current staff member with the fetched one; a failure is
        recorded and swallowed. `id` only addresses the client call. */
    method FetchStaffById(id: int, outcome: Result<Staff>)
      modifies this
      ensures !loading && staffList == old(staffList)
      ensures outcome.Ok? ==> currentStaff == Some(outcome.value) && error == None
      ensures outcome.Err? ==> currentStaff == old(currentStaff) && error == Some(FetchByIdMessage)
    {
      Begin();
      match outcome {
        case Ok(fetched) => currentStaff := Some(fetched);
        case Err(_) => error := Some(FetchByIdMessage);
      }
      loading := false;
    }

    /** Replaces the list with the search hits; a failure is recorded and
        swallowed. `name` only addresses the client call. */
    method SearchStaff(name: string, outcome: Result<seq<Staff>>)
      modifies this
      ensures !loading && currentStaff == old(currentStaff)
      ensures outcome.Ok? ==> staffList == outcome.value && error == None
      ensures outcome.Err? ==> staffList == old(staffList) && error == Some(SearchMessage)
    {
      Begin();
      match outcome {
        case Ok(found) => staffList := found;
        case Err(_) => error := Some(SearchMessage);
      }
      loading := false;
    }

    /** Appends the created staff member and returns it; a failure is recorded
        and re-raised. `data` only forms the client call. */
    method CreateStaff(data: StaffRequest, outcome: Result<Staff>) returns (r: Result<Staff>)
      modifies this
      ensures r == outcome
      ensures !loading && currentStaff == old(currentStaff)
      ensures outcome.Ok? ==> staffList == old(staffList) + [outcome.value] && error == None
      ensures outcome.Err? ==> staffList == old(staffList) && error == Some(CreateMessage)
    {
      Begin();
      match outcome {
        case Ok(created) =>
          staffList := staffList + [created];
          r := Ok(created);
        case Err(e) =>
          error := Some(CreateMessage);
          r := Err(e);
      }
      loading := false;
    }

    /** Writes the updated staff member over the first entry carrying `id`, if
        any, and returns it; a failure is recorded and re-raised. */
    method UpdateStaff(id: int, data: StaffRequest, outcome: Result<Staff>) returns (r: Result<Staff>)
      modifies this
      ensures r == outcome
      ensures !loading && currentStaff == old(currentStaff)
      ensures outcome.Ok? ==> staffList == ReplaceFirst(old(staffList), StaffId, id, outcome.value) && error == None
      ensures outcome.Err? ==> staffList == old(staffList) && error == Some(UpdateMessage)
    {
      Begin();
      match outcome {
        case Ok(updated) =>
          WriteAtFindIndex(staffList, StaffId, id, updated);
          var index := FindIndex(staffList, StaffId, id);
          if index != -1 {
            staffList := staffList[index := updated];
          }
          r := Ok(updated);
        case Err(e) =>
          error := Some(UpdateMessage);
          r := Err(e);
      }
      loading := false;
    }

    /** Drops every entry carrying `id` (the current staff member is left alone);
        a failure is recorded and re-raised. */
    method DeleteStaff(id: int, outcome: Result<()>) returns (r: Result<()>)
      modifies this
      ensures r == outcome
      ensures !loading && currentStaff == old(currentStaff)
      ensures outcome.Ok? ==> staffList == RemoveAll(old(staffList), StaffId, id) && error == None
      ensures outcome.Ok? ==> NoMatch(staffList, StaffId, id)
      ensures outcome.Err? ==> staffList == old(staffList) && error == Some(DeleteMessage)
    {
      Begin();
      match outcome {
        case Ok(done) =>
          staffList := RemoveAll(staffList, StaffId, id);
          r := Ok(done);
        case Err(e) =>
          error := Some(DeleteMessage);
          r := Err(e);
      }
      loading := false;
    }
  }
}
