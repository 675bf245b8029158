/**
 * The list parameters store: page, page size, the three text filters and the
 * sort, shared by the page and the data hook. Each action merges a partial
 * update into the state; the class below holds the state, the functions
 * describe each action's effect on a snapshot of it.
 */
module ParamsStore {
  import opened Wrappers
  import opened EmployeeTypes

  /** A snapshot of the store's state. */
  datatype Params = Params(
    page: int,
    limit: int,
    name: string,
    email: string,
    department: string,
    sort: string,
    order: SortOrder)

  /** The state the store starts in and `reset` returns to. */
  const Initial: Params := Params(1, 10, "", "", "", "id", Desc)

  /** The argument of `setFilters`: absent fields are left as they are. */
  datatype FilterUpdate = FilterUpdate(name: Option<string>, email: Option<string>, department: Option<string>)

  function Flip(o: SortOrder): (r: SortOrder)
    ensures r != o
  {
    match o
    case Asc => Desc
    case Desc => Asc
  }

  /** `setFilters(f)`: the supplied filters replace the old ones and the page returns to 1. */
  function WithFilters(s: Params, f: FilterUpdate): Params {
    s.(name := f.name.GetOr(s.name),
       email := f.email.GetOr(s.email),
       department := f.department.GetOr(s.department),
       page := 1)
  }

  /** `setSorting(field)`: the same field flips the order, another field sorts ascending by it. */
  function WithSorting(s: Params, field: string): Params {
    if field == s.sort then s.(order := Flip(s.order)) else s.(sort := field, order := Asc)
  }

  /**
   * Filtering goes back to page 1, keeps the page size and the sort, and
   * changes exactly the filters it is given.
   */
  lemma FiltersResetPage(s: Params, f: FilterUpdate)
    ensures var t := WithFilters(s, f);
      && t.page == 1 && t.limit == s.limit && t.sort == s.sort && t.order == s.order
      && (f.name.Some? ==> t.name == f.name.value) && (f.name.None? ==> t.name == s.name)
      && (f.email.Some? ==> t.email == f.email.value) && (f.email.None? ==> t.email == s.email)
      && (f.department.Some? ==> t.department == f.department.value) && (f.department.None? ==> t.department == s.department)
  {
  }

  /** Applying the same filters twice is the same as applying them once. */
  lemma FiltersIdempotent(s: Params, f: FilterUpdate)
    ensures WithFilters(WithFilters(s, f), f) == WithFilters(s, f)
  {
  }

  /** Sorting by the current field twice restores the order; the field stays. */
  lemma SortingSameFieldTwice(s: Params)
    ensures WithSorting(s, s.sort).sort == s.sort
    ensures WithSorting(s, s.sort).order != s.order
    ensures WithSorting(WithSorting(s, s.sort), s.sort) == s
  {
  }

  /** Sorting by a new field sorts ascending by it; sorting by it again makes it descending. */
  lemma SortingNewField(s: Params, field: string)
    requires field != s.sort
    ensures WithSorting(s, field).sort == field && WithSorting(s, field).order == Asc
    ensures WithSorting(WithSorting(s, field), field).order == Desc
  {
  }

  /** Sorting touches only the sort field and the order: the page, page size and filters stay. */
  lemma SortingKeepsTheRest(s: Params, field: string)
    ensures var t := WithSorting(s, field);
      t.(sort := s.sort, order := s.order) == s
  {
  }

  /** The store's state as a mutable object. */
  class EmployeesParams {
    var page: int
    var limit: int
    var name: string
    var email: string
    var department: string
    var sort: string
    var order: SortOrder

    function Snapshot(): Params
      reads this
    {
      Params(page, limit, name, email, department, sort, order)
    }

    constructor()
      ensures Snapshot() == Initial
    {
      page, limit := 1, 10;
      name, email, department := "", "", "";
      sort, order := "id", Desc;
    }

    /** `setPage(p)`: the page is taken as given. */
    method SetPage(p: int)
      modifies this
      ensures Snapshot() == old(Snapshot()).(page := p)
    {
      page := p;
    }

    /** `setLimit(l)`: the page size is taken as given; the page is not reset. */
    method SetLimit(l: int)
      modifies this
      ensures Snapshot() == old(Snapshot()).(limit := l)
    {
      limit := l;
    }

    method SetFilters(f: FilterUpdate)
      modifies this
      ensures Snapshot() == WithFilters(old(Snapshot()), f)
    {
      name := if f.name.Some? then f.name.value else name;
      email := if f.email.Some? then f.email.value else email;
      department := if f.department.Some? then f.department.value else department;
      page := 1;
    }

    method SetSorting(field: string)
      modifies this
      ensures Snapshot() == WithSorting(old(Snapshot()), field)
    {
      var same := field == sort;
      sort := if same then sort else field;
      order := if same then (if order == Asc then Desc else Asc) else Asc;
    }

    /** `reset()`: back to the initial state, whatever the state was. */
    method Reset()
      modifies this
      ensures Snapshot() == Initial
    {
      page, limit := 1, 10;
      name, email, department := "", "", "";
      sort, order := "id", Desc;
    }
  }
}
