# Employee, Developer and Manager records

A Dafny model of the record-and-roster code in `scratch.py`, a teaching
script about Python classes. It covers:

- the `Employee` record with its `first`, `last` and `pay` fields;
- the derived `email` and `fullname` properties;
- the `fullname` setter, which splits a name on a single space, and the
  `fullname` deleter, which clears both names;
- the alternate constructor `from_string`, which splits `first-last-pay`
  on dashes;
- the static rule `is_workday`;
- the class-wide counter `num_of_emps`, bumped by every constructor;
- the `Developer` and `Manager` variants;
- a manager's roster of employee references, with `add_emp` and
  `remove_emp`.

Layout:

- `strings.dfy`: module `Wrappers` (an `Option` type) and module `Strings`.
  `Strings` has `Count`, `Split` (Python's `str.split` on one character)
  and `Join`, with the lemmas that splitting and joining undo each other.
- `rosters.dfy`: module `Rosters`. It models the list operations behind
  `add_emp` and `remove_emp` as functions on sequences: `Added`,
  `FirstIndex`, `RemoveFirst` (Python's `list.remove`) and `Removed`, with
  their lemmas.
- `staff.dfy`: module `Staff`. It has the name and pay values, the pure
  formatting and parsing functions, the weekday rule, and three classes:
  - `Registry` holds the `num_of_emps` counter;
  - `Roster` is the manager's list object;
  - `Employee` is the record. Its constructors are the unnamed one,
    `Developer` and `Manager`. Its methods are the setter, the deleter,
    `FromString`, `AddEmp` and `RemoveEmp`.

Modelling choices:

- **One class for three.** Python's two subclasses become one class,
  `Employee`, with a constant `role`. `DeveloperRole` carries `prog_lang`.
  `ManagerRole` carries the roster. Every constructor does what
  `Employee.__init__` does, so each one raises the shared counter by one.
- **The counter is an object.** The class attribute `num_of_emps` is the
  field of a `Registry` object, and every constructor takes and updates
  that object.
- **The roster is shared, not copied.** The manager's list is a `Roster`
  object, not a bare sequence. A list passed to `Manager(...)` is therefore
  kept as the same object, as the source does, and later `add_emp` and
  `remove_emp` calls change that shared object. Membership and removal
  compare references. That is identity, the comparison Python uses for a
  class without `__eq__`.
- **Names can be None.** A name field is `Given(text)` or `Missing`. The
  deleter sets both fields to `Missing`. The properties show `Missing` as
  `None`, as a Python f-string would.
- **Pay keeps its type.** Pay is `Int(amount)` or `Str(text)`.
  `from_string` yields `Str`, because the source never converts the
  piece (scratch.py:67-68). The model keeps that behaviour.
- **Failures are results.** Python raises `ValueError` when tuple
  unpacking gets the wrong number of pieces. Here that is an `ok` result
  of `false` (the setter), a `null` result (`FromString`) or `None` (the
  parsing functions). In each case nothing is changed or built.
- **A failed setter changes nothing.** `first, last = name.split(' ')`
  raises on a name with zero or several spaces before either assignment
  runs. In the model the call fails and leaves both names unchanged.
- **Weekdays are numbers.** The `datetime.date` argument of `is_workday`
  is replaced by its weekday number, 0 (Monday) to 6 (Sunday).

## Model

| member | source | states |
|---|---|---|
| Strings.Split | scratch.py:34 | `str.split` on one character: one more piece than there are separators, and no piece contains the separator |
| Strings.SplitThenJoin | scratch.py:34 | joining the pieces of a split with the separator gives the original string back |
| Strings.JoinThenSplit | scratch.py:67 | separator-free pieces joined with the separator split back into exactly those pieces |
| Strings.SplitAtSeparator | scratch.py:67 | splitting at one separator concatenates the pieces of the two sides |
| Staff.Show | scratch.py:26-30 | an f-string prints a name field as its text, and a name that is None as `None` |
| Staff.DeletedNameReadsAsNone | scratch.py:26-42 | after the deleter, the name fields print exactly like the string `"None"`, so `fullname` cannot tell a deleted name from that string |
| Staff.FullNameOf | scratch.py:30 | the full name is the printed first name, one space at the position right after it, then the printed last name |
| Staff.DeletedAddress | scratch.py:26 | with both names None, the address reads `None.None@company.com` |
| Staff.EmailOf | scratch.py:25-26 | the address ends in `@company.com`, and what comes before it is the first name, a dot and the last name |
| Staff.EmailRecoversNames | scratch.py:25-26 | when the names contain no dot or at sign, the address splits at `@` into the local part and the host, and the local part splits at `.` into exactly the two names |
| Staff.Employee.Email | scratch.py:24-26 | the `email` property, read from the current name fields, ends in `@company.com`, and what comes before it is the first name, a dot and the last name |
| Staff.Employee.FullName | scratch.py:28-36 | when both current names are strings without a space, the `fullname` property parses back through the setter's split into exactly those names, so assigning it back to `fullname` changes nothing |
| Staff.ParseFullName | scratch.py:34 | `first, last = name.split(' ')` succeeds exactly when the name has one space; the two parts are space-free and rebuild the name around one space |
| Staff.FullNameRoundTrip | scratch.py:28-36 | parsing the full name built from two names gives those names back exactly when neither contains a space, and fails otherwise |
| Staff.Employee.SetFullName | scratch.py:32-36 | the setter succeeds exactly when the name has one space; it then sets both names so that reading `fullname` returns the name that was set; otherwise it fails and leaves both names unchanged; pay is never touched |
| Staff.Employee.DeleteFullName | scratch.py:38-42 | the deleter sets both names to None, so `fullname` reads `None None` and `email` reads `None.None@company.com`; pay is never touched |
| Staff.ParseEmpString | scratch.py:66-67 | `first, last, pay = emp_str.split('-')` succeeds exactly when the string has two dashes; the three parts are dash-free and rebuild the string |
| Staff.EmpStringRoundTrip | scratch.py:65-68 | a string built from three dash-free pieces parses back into them; one built from pieces with a dash in them does not parse |
| Staff.Employee.FromString | scratch.py:65-68 | `from_string` succeeds exactly when the string has two dashes; on success it builds one new plain employee whose names and pay are the three pieces in order, with pay kept as a string, and raises the counter by one; on failure it builds nothing and leaves the counter unchanged |
| Staff.IsWorkday | scratch.py:70-74 | as written: a day is a non-workday exactly when it is Saturday (weekday 5) |
| Staff.IsWorkdayIntended | scratch.py:70-74 | as intended: a day is a non-workday exactly when it is Saturday or Sunday |
| Staff.WorkdayDiscrepancy | scratch.py:72 | the written and the intended rule disagree on Sunday and on no other day |
| Staff.Registry.constructor | scratch.py:10 | the employee counter starts at zero |
| Staff.Employee.constructor | scratch.py:16-22 | the constructor stores the given first name, last name and pay, and raises the shared counter by exactly one |
| Staff.Employee.Developer | scratch.py:79-81 | a developer is built through the same steps: names and pay stored, counter raised by one, and `prog_lang` recorded |
| Staff.Employee.Manager | scratch.py:84-89 | a manager is built through the same steps and the counter is raised by one; with no list the roster is a new empty list; with a list the roster is that same object, unchanged |
| Staff.Roster.constructor | scratch.py:86-89 | a list object holding the given employee references |
| Rosters.Added | scratch.py:91-93 | after `add_emp` the element is present, the old roster is a prefix, and the length grows by one exactly when the element was absent |
| Rosters.AddedIdempotent | scratch.py:91-93 | adding the same employee twice is the same as adding it once |
| Rosters.AddedKeepsNoDup | scratch.py:91-93 | adding keeps a duplicate-free roster duplicate-free |
| Staff.Employee.AddEmp | scratch.py:91-93 | `add_emp` changes only the manager's roster object, and afterwards the roster is `Added` of the old one: `emp` is appended when absent and nothing changes when present |
| Rosters.FirstIndex | scratch.py:97 | the position of the first occurrence: it holds the element, and no earlier position does |
| Rosters.RemoveFirst | scratch.py:97 | `list.remove` keeps everything before the first occurrence and everything after it, in order, and drops only that occurrence |
| Rosters.RemoveFirstOneCopy | scratch.py:97 | `list.remove` takes away exactly one copy of the element and nothing else |
| Rosters.Removed | scratch.py:96-97 | `if emp in employees: employees.remove(emp)`: an absent employee leaves the roster unchanged; a present one shortens it by one and takes away exactly one copy of that employee |
| Rosters.RemovedSplice | scratch.py:95-97 | `remove_emp` leaves the roster unchanged when the employee is absent; otherwise it cuts out the first occurrence and keeps the order of all other entries |
| Rosters.RemovedKeepsNoDup | scratch.py:95-97 | on a duplicate-free roster, removing keeps it duplicate-free and leaves the employee absent |
| Rosters.RemovedIdempotent | scratch.py:95-97 | on a duplicate-free roster, removing the same employee twice is the same as removing it once |
| Rosters.AddThenRemove | scratch.py:91-97 | `add_emp(e)` followed by `remove_emp(e)` on a roster not containing `e` restores the original roster |
| Staff.Employee.RemoveEmp | scratch.py:95-97 | `remove_emp` changes only the manager's roster object, and afterwards the roster is `Removed` of the old one |

## Left out

- `apply_raise`, `raise_amount` and `set_raise_amount` (scratch.py:11, 44-45, 62-63, 77) are left out. They multiply by a float and truncate, which is floating-point arithmetic.
- `__str__`, `__len__` and `print_emps` (scratch.py:50-51, 56-57, 99-101) are left out. `__str__` and `__len__` call the `fullname` property as a function, so they raise a TypeError; `print_emps` does the same for each roster entry, so it raises a TypeError on a non-empty roster, and it is console output.
- `__add__` (scratch.py:53-54) is left out. It is a bare `+` on the pay fields, whose meaning depends on whether pay is an int or a string.
- `__repr__` (scratch.py:47-48) is left out. It only formats values of mixed types.
- The deleter's `print` (scratch.py:40) and the script's top-level demonstration code (scratch.py:103-255) are console output and are left out.
- `from_string` called on a subclass (`cls` being `Developer` or `Manager`) is not modelled; only `Employee.from_string` is.
- Python's dynamic typing is not modelled. Constructor arguments are strings, and pay is an int or a string. Arguments of other types, and attributes reassigned to other types, are outside the model.
- Direct reassignment of `first`, `last` and `pay` is possible on the fields. The `role`, and with it `prog_lang` and the manager's choice of list object, is fixed at construction.
- `datetime.date` is replaced by its weekday number.

## Findings

| source | as written | input that shows it | evidently intended | confidence | as-written member | corrected member |
|---|---|---|---|---|---|---|
| scratch.py:72 | `day.weekday == 6` compares the bound method object, not its result, with 6, so the test is always false | a Sunday (weekday 6): `is_workday` returns True | Saturday and Sunday are both non-workdays | high; not executed | Staff.IsWorkday (with Staff.WorkdayDiscrepancy) | Staff.IsWorkdayIntended |
