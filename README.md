# Staff and department stores: a Dafny model

This project models the two state stores of a browser front end for staff
and department records: `useDepartmentStore` (`src/stores/department.ts`)
and `useStaffStore` (`src/stores/staff.ts`). Each store caches an entity
list (`departments` / `staffList`), one "current" entity
(`currentDepartment` / `currentStaff`), a `loading` flag and an `error`
message. It has six actions: fetch all, fetch by id, search, create,
update and delete. Every action sets `loading` and clears `error`, awaits
one client call, and then commits the result. On failure it records a
fixed message for that action. Read actions swallow the failure and write
actions re-raise it. `loading` is reset in every case.

Layout:

- `wrappers.dfy` (`Wrappers`): `Option`, plus `Result`, the outcome of one
  awaited client call (`Ok(value)` or `Err(failure)`).
- `entities.dfy` (`Entities`): the record shapes of `src/api/types.ts`.
  Optional properties are `Option`s, so `id` is an `Option<int>`.
- `entity_list.dfy` (`EntityList`): the list updates the stores commit.
  `FindIndex` models `findIndex`, `RemoveAll` models `filter`, and
  `ReplaceFirst` is an independent recursive definition of the update
  commit. It also holds the lemmas that characterise these functions.
  `HasId` models `x.id === id`, so an entry without an id never matches.
- `department_store.dfy` (`DepartmentStore`) and `staff_store.dfy`
  (`StaffStore`): one class `Store` each, with the source's four fields
  and six actions as methods. Each method takes the client call's outcome
  as a parameter. A write action returns a `Result`: the returned entity,
  or the same failure re-raised. The update method runs `FindIndex` and
  an indexed write on the field's value, as the source does on the array, and is proved to compute
  `ReplaceFirst`.

## Model

| member | source | states |
|---|---|---|
| `EntityList.FindIndex` | src/stores/department.ts:72 | the result is -1 exactly when no entry carries the id; otherwise it is the first position whose `id` equals the given id |
| `EntityList.ReplaceFirst` | src/stores/department.ts:72-75 | the update commit never changes the list's length |
| `EntityList.ReplaceFirstNoMatch` | src/stores/department.ts:72-75 | when no entry carries the id, the update commit leaves the list unchanged |
| `EntityList.ReplaceFirstAtFirstMatch` | src/stores/department.ts:72-75 | when `k` is the first position carrying the id, the committed list is the old list with only position `k` replaced by the returned entity |
| `EntityList.WriteAtFindIndex` | src/stores/staff.ts:72-75 | the source's "find the index, write there if it is not -1" computes exactly `ReplaceFirst` |
| `EntityList.ReplaceFirstAfterPush` | src/stores/department.ts:56-74 | updating the id of an entity just appended, when no older entry has that id, replaces that last entry |
| `EntityList.RemoveAll` | src/stores/department.ts:91 | the filter never grows the list, leaves no entry with the id, keeps only old entries, and keeps every old entry without the id |
| `EntityList.RemoveAllNoMatch` | src/stores/department.ts:91 | deleting an id no entry carries leaves the list unchanged |
| `EntityList.RemoveAllIdempotent` | src/stores/staff.ts:91 | deleting the same id twice gives the same list as deleting it once |
| `EntityList.RemoveAllAppend` | src/stores/department.ts:91 | the filter works entry by entry: filtering `a + b` gives filtered `a` followed by filtered `b` |
| `EntityList.RemoveAllKeepsOrder` | src/stores/department.ts:91 | the survivors of a delete keep their relative order: the result is a subsequence of the old list |
| `EntityList.RemoveAllAfterPush` | src/stores/department.ts:56-91 | deleting the id of an entity just appended removes it again; an appended entity without that id survives at the end |
| `DepartmentStore.Store.constructor` | src/stores/department.ts:7-10 | a new store has an empty list, no current department, `loading` false and no error |
| `DepartmentStore.Store.Begin` | src/stores/department.ts:13-14 | an action starts with `loading` true and `error` cleared, and leaves the cached data untouched |
| `DepartmentStore.Store.FetchAllDepartments` | src/stores/department.ts:12-23 | on success the list is exactly the fetched sequence and `error` is none; on failure the list is kept and `error` is "Failed to fetch departments"; nothing is raised; `currentDepartment` is kept; `loading` ends false |
| `DepartmentStore.Store.FetchDepartmentById` | src/stores/department.ts:25-36 | on success `currentDepartment` is the fetched department; on failure it is kept and `error` is "Failed to fetch department details"; the list is kept; `loading` ends false |
| `DepartmentStore.Store.SearchDepartments` | src/stores/department.ts:38-49 | on success the list is exactly the search result; on failure the list is kept and `error` is "Failed to search departments"; `loading` ends false |
| `DepartmentStore.Store.CreateDepartment` | src/stores/department.ts:51-65 | on success the created department is appended and returned; on failure the list is kept, `error` is "Failed to create department" and the failure is re-raised; `currentDepartment` is kept; `loading` ends false |
| `DepartmentStore.Store.UpdateDepartment` | src/stores/department.ts:67-84 | on success the list is `ReplaceFirst` of the old list and the updated department is returned; on failure the list is kept, `error` is "Failed to update department" and the failure is re-raised; `loading` ends false |
| `DepartmentStore.Store.DeleteDepartment` | src/stores/department.ts:86-99 | on success the list is the old list filtered by the id and no entry carries it; `currentDepartment` is kept; on failure the list is kept, `error` is "Failed to delete department" and the failure is re-raised; `loading` ends false |
| `StaffStore.Store.constructor` | src/stores/staff.ts:7-10 | a new store has an empty list, no current staff member, `loading` false and no error |
| `StaffStore.Store.Begin` | src/stores/staff.ts:13-14 | an action starts with `loading` true and `error` cleared, and leaves the cached data untouched |
| `StaffStore.Store.FetchAllStaff` | src/stores/staff.ts:12-23 | on success `staffList` is exactly the fetched sequence; on failure it is kept and `error` is "Failed to fetch staff list"; nothing is raised; `loading` ends false |
| `StaffStore.Store.FetchStaffById` | src/stores/staff.ts:25-36 | on success `currentStaff` is the fetched member; on failure it is kept and `error` is "Failed to fetch staff details"; `staffList` is kept; `loading` ends false |
| `StaffStore.Store.SearchStaff` | src/stores/staff.ts:38-49 | on success `staffList` is exactly the search result; on failure it is kept and `error` is "Failed to search staff"; `loading` ends false |
| `StaffStore.Store.CreateStaff` | src/stores/staff.ts:51-65 | on success the created member is appended and returned; on failure `staffList` is kept, `error` is "Failed to create staff" and the failure is re-raised; `currentStaff` is kept; `loading` ends false |
| `StaffStore.Store.UpdateStaff` | src/stores/staff.ts:67-84 | on success `staffList` is `ReplaceFirst` of the old list and the updated member is returned; on failure the list is kept, `error` is "Failed to update staff" and the failure is re-raised; `loading` ends false |
| `StaffStore.Store.DeleteStaff` | src/stores/staff.ts:86-99 | on success `staffList` is the old list filtered by the id and no entry carries it; `currentStaff` is kept; on failure the list is kept, `error` is "Failed to delete staff" and the failure is re-raised; `loading` ends false |

## Left out

- The resource clients (`src/api/department.ts`, `src/api/staff.ts`): each is one HTTP call through `apiClient`, which is not part of this model. The call is replaced by its outcome, a `Result` passed into each store action. This drops `getDepartmentByCode`, `getStaffByStaffNo` and `getStaffByDepartment`, which no store action calls. It also drops the envelope unwrapping (`response.data.data`), which ignores the `success` flag.
- The store actions' parameters `id` (fetch by id), `name` (search) and `data` (create, update) only form the client call, so the model takes them and does not use them.
- The window in which `loading` is true while the call is awaited: each action is modelled as atomic given its outcome. `Begin` states the state at the start of that window, and every action ends with `loading` false.
- Overlapping actions on one store, which race on `loading`, `error` and the list. Each action runs to completion before the next one starts.
- `console.error` logging, Vue `ref` reactivity, Pinia's `defineStore` singleton and the route table (`src/router/index.ts`): none of these changes store state.
- JavaScript numbers (`id`, `parentId`, `level`) are modelled as unbounded integers. Fractional values, `NaN` and the limits of floating point are not modelled.
- The lists are modelled as values (`seq`), so only the value of the store field is kept. In the source, `push` (line 56 of both stores) and the indexed write `list[index] = …` (line 74) change the array object in place, and anyone holding the previous array sees the change. `filter` (line 91) assigns a new array, so such a holder keeps the deleted entries. The model captures neither the in-place update nor the aliasing it causes.
