/**
 * The employee management page: an in-memory table of employee records behind
 * an admin check, with add (append), edit (replace every record with the same
 * employee number) and delete (filter out every record with that number, after
 * a confirmation the user answers).
 */
module EmployeeManagement {
  import opened Js
  import EmployeeForm

  /** A record as the details form saves it: field name to text. */
  type Employee = map<string, string>

  /** `emp.empNo`, `None` when the record has no such property (`undefined`). */
  function EmpNo(e: Employee): Option<string>
  {
    if "empNo" in e then Some(e["empNo"]) else None
  }

  /** The page renders only for a user whose `role` is exactly "admin" or "Administrator". */
  predicate HasAccess(user: Option<JsObject>): (ok: bool)
    ensures ok ==> user.Some? && Get(user.value, "role").Str?
  {
    user.Some? && (Get(user.value, "role") == Str("admin") || Get(user.value, "role") == Str("Administrator"))
  }

  /** The two records the table starts with, in this order. */
  const InitialEmployees: seq<Employee> := [
    map[
      "empNo" := "EMP001", "name" := "John Smith", "email" := "john.smith@company.com",
      "department" := "Engineering", "designation" := "Software Engineer", "role" := "Employee",
      "manager" := "Jane Doe", "location" := "Bangalore"
    ],
    map[
      "empNo" := "EMP002", "name" := "Jane Doe", "email" := "jane.doe@company.com",
      "department" := "Engineering", "designation" := "Manager", "role" := "Manager",
      "manager" := "Admin User", "location" := "Mumbai"
    ]
  ]

  /** How many records carry the employee number `n`. */
  function CountEmpNo(list: seq<Employee>, n: Option<string>): (c: nat)
    ensures c <= |list|
    decreases |list|
  {
    if list == [] then 0 else (if EmpNo(list[0]) == n then 1 else 0) + CountEmpNo(list[1..], n)
  }

  /** `employees.map(emp => emp.empNo === data.empNo ? data : emp)`. */
  function Replaced(list: seq<Employee>, data: Employee): (r: seq<Employee>)
    ensures |r| == |list|
    ensures forall k :: 0 <= k < |list| ==> r[k] == if EmpNo(list[k]) == EmpNo(data) then data else list[k]
    decreases |list|
  {
    if list == [] then []
    else [if EmpNo(list[0]) == EmpNo(data) then data else list[0]] + Replaced(list[1..], data)
  }

  /** `employees.filter(emp => emp.empNo !== empNo)`. */
  function Removed(list: seq<Employee>, n: Option<string>): (r: seq<Employee>)
    ensures |r| <= |list|
    decreases |list|
  {
    if list == [] then []
    else if EmpNo(list[0]) != n then [list[0]] + Removed(list[1..], n)
    else Removed(list[1..], n)
  }

  // ---------------------------------------------------------------- Properties of the list operations

  lemma {:induction false} CountAppend(a: seq<Employee>, b: seq<Employee>, n: Option<string>)
    ensures CountEmpNo(a + b, n) == CountEmpNo(a, n) + CountEmpNo(b, n)
    decreases |a|
  {
    if a == [] {
      assert a + b == b;
    } else {
      CountAppend(a[1..], b, n);
      assert (a + b)[0] == a[0];
      assert (a + b)[1..] == a[1..] + b;
    }
  }

  /** Adding performs no duplicate check: the new record's number occurs once more than before. */
  lemma AddKeepsDuplicates(list: seq<Employee>, data: Employee)
    ensures CountEmpNo(list + [data], EmpNo(data)) == CountEmpNo(list, EmpNo(data)) + 1
  {
    CountAppend(list, [data], EmpNo(data));
    assert [data][1..] == [];
  }

  /** Adding "EMP001" to the initial table leaves two records with that number. */
  lemma InitialTableAcceptsDuplicate(data: Employee)
    requires EmpNo(data) == Some("EMP001")
    ensures CountEmpNo(InitialEmployees + [data], Some("EMP001")) == 2
  {
    AddKeepsDuplicates(InitialEmployees, data);
    assert EmpNo(InitialEmployees[0]) == Some("EMP001");
    assert EmpNo(InitialEmployees[1]) == Some("EMP002");
    assert InitialEmployees[1..][1..] == [];
  }

  /** Editing with a number no record carries changes nothing. */
  lemma {:induction false} ReplaceAbsent(list: seq<Employee>, data: Employee)
    requires CountEmpNo(list, EmpNo(data)) == 0
    ensures Replaced(list, data) == list
    decreases |list|
  {
    if list != [] {
      ReplaceAbsent(list[1..], data);
    }
  }

  /** Editing keeps how many records carry the edited number; every one of them is now the new record. */
  lemma {:induction false} ReplaceKeepsCount(list: seq<Employee>, data: Employee)
    ensures CountEmpNo(Replaced(list, data), EmpNo(data)) == CountEmpNo(list, EmpNo(data))
    decreases |list|
  {
    if list != [] {
      ReplaceKeepsCount(list[1..], data);
    }
  }

  /** Deleting keeps the relative order of what stays: it distributes over concatenation. */
  lemma {:induction false} RemovedAppend(a: seq<Employee>, b: seq<Employee>, n: Option<string>)
    ensures Removed(a + b, n) == Removed(a, n) + Removed(b, n)
    decreases |a|
  {
    if a == [] {
      assert a + b == b;
    } else {
      var ab := a + b;
      assert ab[0] == a[0] && ab[1..] == a[1..] + b;
      RemovedAppend(a[1..], b, n);
      if EmpNo(a[0]) != n {
        assert Removed(ab, n) == [a[0]] + (Removed(a[1..], n) + Removed(b, n));
        assert Removed(a, n) == [a[0]] + Removed(a[1..], n);
      } else {
        assert Removed(ab, n) == Removed(a[1..], n) + Removed(b, n);
        assert Removed(a, n) == Removed(a[1..], n);
      }
    }
  }

  /** Deleting removes exactly the records with that number: all of them go, and only they do. */
  lemma {:induction false} RemovedExactly(list: seq<Employee>, n: Option<string>)
    ensures CountEmpNo(Removed(list, n), n) == 0
    ensures |Removed(list, n)| == |list| - CountEmpNo(list, n)
    ensures forall e :: e in Removed(list, n) <==> e in list && EmpNo(e) != n
    decreases |list|
  {
    if list != [] {
      RemovedExactly(list[1..], n);
      var rest := Removed(list[1..], n);
      if EmpNo(list[0]) != n {
        var r := [list[0]] + rest;
        assert Removed(list, n) == r;
        assert r[0] == list[0] && r[1..] == rest;
        assert CountEmpNo(r, n) == 0;
      } else {
        assert Removed(list, n) == rest;
      }
      forall e
        ensures e in Removed(list, n) <==> e in list && EmpNo(e) != n
      {
        assert e in list <==> e == list[0] || e in list[1..];
      }
    }
  }

  /** A role spelled "Admin", as the details form offers it, does not open the page; nor does a user with no role. */
  lemma AccessRoleSpellings(user: JsObject)
    ensures Get(user, "role") == Str("Admin") ==> !HasAccess(Some(user))
    ensures "role" !in user ==> !HasAccess(Some(user))
    ensures !HasAccess(None)
  {
  }

  /** For a user whose `role` is a text, the page opens exactly for "admin" and "Administrator". */
  lemma AccessGranted(user: JsObject, r: string)
    requires Get(user, "role") == Str(r)
    ensures HasAccess(Some(user)) <==> r == "admin" || r == "Administrator"
  {
  }

  /** The initial table holds EMP001 then EMP002. */
  lemma InitialTable()
    ensures |InitialEmployees| == 2
    ensures EmpNo(InitialEmployees[0]) == Some("EMP001") && EmpNo(InitialEmployees[1]) == Some("EMP002")
  {
  }

  // ---------------------------------------------------------------- The page's state

  class EmployeeManagementPage {
    /** The user from the context, fixed for the page's lifetime. */
    const user: Option<JsObject>
    var employees: seq<Employee>
    var showAddForm: bool
    var editingEmployee: Option<Employee>

    constructor(user: Option<JsObject>)
      ensures this.user == user
      ensures employees == InitialEmployees && !showAddForm && editingEmployee.None?
    {
      this.user := user;
      employees := InitialEmployees;
      showAddForm := false;
      editingEmployee := None;
    }

    /**
     * What the page renders: the refusal message (`None`) unless the user has
     * access, otherwise the table of records in order; the buttons below are
     * rendered only in the second case.
     */
    function Rendered(): (rows: Option<seq<Employee>>)
      reads this
      ensures rows.None? <==> !HasAccess(user)
      ensures rows.Some? ==> rows.value == employees
    {
      if HasAccess(user) then Some(employees) else None
    }

    /** The "+ Add Employee" button. */
    method OpenAddForm()
      requires HasAccess(user)
      modifies this
      ensures showAddForm && employees == old(employees) && editingEmployee == old(editingEmployee)
    {
      showAddForm := true;
    }

    /** The add form's cancel. */
    method CancelAdd()
      requires HasAccess(user)
      modifies this
      ensures !showAddForm && employees == old(employees) && editingEmployee == old(editingEmployee)
    {
      showAddForm := false;
    }

    /** A row's Edit button. */
    method StartEdit(e: Employee)
      requires HasAccess(user)
      modifies this
      ensures editingEmployee == Some(e) && employees == old(employees) && showAddForm == old(showAddForm)
    {
      editingEmployee := Some(e);
    }

    /** The edit form's cancel. */
    method CancelEdit()
      requires HasAccess(user)
      modifies this
      ensures editingEmployee.None? && employees == old(employees) && showAddForm == old(showAddForm)
    {
      editingEmployee := None;
    }

    /** `handleAddEmployee`: appends at the end and closes the add form. */
    method HandleAddEmployee(data: Employee)
      requires HasAccess(user)
      modifies this
      ensures employees == old(employees) + [data]
      ensures |employees| == |old(employees)| + 1 && employees[..|old(employees)|] == old(employees)
      ensures !showAddForm && editingEmployee == old(editingEmployee)
    {
      employees := employees + [data];
      showAddForm := false;
    }

    /** `handleEditEmployee`: replaces every record with the same number and closes the edit form. */
    method HandleEditEmployee(data: Employee)
      requires HasAccess(user)
      modifies this
      ensures employees == Replaced(old(employees), data)
      ensures |employees| == |old(employees)|
      ensures editingEmployee.None? && showAddForm == old(showAddForm)
    {
      employees := Replaced(employees, data);
      editingEmployee := None;
    }

    /** `handleDeleteEmployee`: when the user confirms, filters out every record with that number. */
    method HandleDeleteEmployee(n: Option<string>, confirmed: bool)
      requires HasAccess(user)
      modifies this
      ensures employees == if confirmed then Removed(old(employees), n) else old(employees)
      ensures showAddForm == old(showAddForm) && editingEmployee == old(editingEmployee)
    {
      if confirmed {
        employees := Removed(employees, n);
      }
    }
  }

  /**
   * Every record the details form has handed to `onSave` carries a non-empty
   * number, so edits coming from the form never match by `undefined`.
   */
  lemma FormRecordsHaveNumbers(form: EmployeeForm.DetailsForm)
    requires form.Valid()
    ensures forall k :: 0 <= k < |form.saved| ==> EmpNo(form.saved[k]).Some? && EmpNo(form.saved[k]).value != ""
  {
    forall k | 0 <= k < |form.saved|
      ensures EmpNo(form.saved[k]).Some? && EmpNo(form.saved[k]).value != ""
    {
      assert EmployeeForm.Field(form.saved[k], "empNo") != "";
    }
  }
}
