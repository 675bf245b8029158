/** The employee record and the shapes derived from it for create and update. */
module EmployeeTypes {
  import opened Wrappers

  /** `"asc" | "desc"`. */
  datatype SortOrder = Asc | Desc

  /** The text the backend receives for a sort order. */
  function OrderText(o: SortOrder): string {
    match o
    case Asc => "asc"
    case Desc => "desc"
  }

  datatype Employee = Employee(
    id: int,
    name: string,
    email: string,
    phone: string,
    department: string,
    joinDate: string)

  /** The record without its `id`: what a create request supplies. */
  datatype CreateInput = CreateInput(
    name: string,
    email: string,
    phone: string,
    department: string,
    joinDate: string)

  /** Every field optional: what an update request supplies. */
  datatype UpdateInput = UpdateInput(
    name: Option<string>,
    email: Option<string>,
    phone: Option<string>,
    department: Option<string>,
    joinDate: Option<string>)

  function WithoutId(e: Employee): CreateInput {
    CreateInput(e.name, e.email, e.phone, e.department, e.joinDate)
  }

  /** `{ ...payload, id }`: the payload's fields, copied, plus the id. */
  function WithId(p: CreateInput, id: int): (e: Employee)
    ensures e.id == id && WithoutId(e) == p
  {
    Employee(id, p.name, p.email, p.phone, p.department, p.joinDate)
  }
}
