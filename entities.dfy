/** The record shapes exchanged with the back end (src/api/types.ts). Every
    optional property (`p?: T`) is an `Option`; JavaScript numbers are `int`. */
module Entities {
  import opened Wrappers

  /** A department; `id` is absent until the back end has persisted it. */
  datatype Department = Department(
    id: Option<int>,
    code: string,
    name: string,
    description: Option<string>,
    parentId: Option<int>,
    level: int,
    isActive: bool,
    createdAt: Option<string>,
    updatedAt: Option<string>)

  /** A staff member, with the back end's denormalised copy of its department. */
  datatype Staff = Staff(
    id: Option<int>,
    staffNo: string,
    name: string,
    gender: Option<string>,
    birthDate: Option<string>,
    phone: Option<string>,
    email: Option<string>,
    idCard: Option<string>,
    department: Option<Department>,
    position: Option<string>,
    hireDate: Option<string>,
    status: Option<string>,
    address: Option<string>,
    isActive: bool,
    createdAt: Option<string>,
    updatedAt: Option<string>)

  /** The body sent to create or update a department. */
  datatype DepartmentRequest = DepartmentRequest(
    code: string,
    name: string,
    description: Option<string>,
    parentId: Option<int>,
    level: Option<int>,
    isActive: Option<bool>)

  /** The body sent to create or update a staff member; it names the
      department by foreign key, not by an embedded record. */
  datatype StaffRequest = StaffRequest(
    staffNo: string,
    name: string,
    gender: Option<string>,
    birthDate: Option<string>,
    phone: Option<string>,
    email: Option<string>,
    idCard: Option<string>,
    departmentId: Option<int>,
    position: Option<string>,
    hireDate: Option<string>,
    status: Option<string>,
    address: Option<string>,
    isActive: Option<bool>)

  /** The identity the stores compare (`d.id`). */
  function DepartmentId(d: Department): (r: Option<int>) { d.id }

  /** The identity the stores compare (`s.id`). */
  function StaffId(s: Staff): (r: Option<int>) { s.id }
}
