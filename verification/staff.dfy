/**
  The Employee record, its Developer and Manager variants, the class-wide
  employee counter and a manager's roster of employee references.

  Python's subclasses are modelled as one class with a fixed `role`: a
  Developer carries its programming language, a Manager its roster. Every
  constructor goes through the same counting step that `Employee.__init__`
  performs.
 */
module Staff {
  import opened Wrappers
  import opened Strings
  import opened Rosters

  /** A name field: a string, or None after the full name has been deleted. */
  datatype Name = Missing | Given(text: string)

  /** How an f-string renders a name field: a string as itself, None as "None", so a
      deleted name and the name "None" print alike. */
  function Show(n: Name): (r: string)
    ensures n.Given? ==> r == n.text
    ensures n.Missing? ==> r == "None"
  {
    match n
    case Missing => "None"
    case Given(t) => t
  }

  /** A deleted name prints exactly like the name "None": the properties cannot tell them apart. */
  lemma DeletedNameReadsAsNone()
    ensures Show(Missing) == Show(Given("None"))
    ensures FullNameOf(Missing, Missing) == FullNameOf(Given("None"), Given("None"))
  {
  }

  /** The address of an employee whose names were deleted. */
  lemma DeletedAddress()
    ensures EmailOf(Missing, Missing) == "None.None@company.com"
  {
    assert Show(Missing) == "None";
  }

  /** The pay field: an int as passed to the constructor, or the string piece that
      `from_string` leaves unconverted. */
  datatype Pay = Int(amount: int) | Str(text: string)

  const Domain: string := "@company.com"

  /** The `fullname` property: first and last name around one space. */
  function FullNameOf(first: Name, last: Name): (r: string)
    ensures |r| == |Show(first)| + 1 + |Show(last)| && r[|Show(first)|] == ' '
    ensures r[..|Show(first)|] == Show(first) && r[|Show(first)| + 1..] == Show(last)
  {
    Show(first) + [' '] + Show(last)
  }

  /** The `email` property: first and last name joined by a dot, at the company domain. */
  function EmailOf(first: Name, last: Name): (r: string)
    ensures |r| > |Domain| && r[|r| - |Domain|..] == Domain
    ensures r[..|r| - |Domain|] == Show(first) + "." + Show(last)
  {
    Show(first) + "." + Show(last) + Domain
  }

  /** The names in an e-mail address can be read back when neither contains a dot or an at sign. */
  lemma EmailRecoversNames(first: Name, last: Name)
    requires '.' !in Show(first) && '.' !in Show(last)
    requires '@' !in Show(first) && '@' !in Show(last)
    ensures var local := Show(first) + "." + Show(last);
            Split(EmailOf(first, last), '@') == [local, Domain[1..]] &&
            Split(local, '.') == [Show(first), Show(last)]
  {
    var host := Domain[1..];
    assert Domain == ['@'] + host;
    assert '@' !in host;
    var local := Show(first) + ['.'] + Show(last);
    assert EmailOf(first, last) == local + ['@'] + host;
    AddressSplits(Show(first), Show(last), host);
  }

  /** An address `a.b@host` splits at the at sign into `a.b` and the host, and `a.b`
      splits at the dot into `a` and `b`, when the pieces are free of those separators. */
  lemma AddressSplits(a: string, b: string, host: string)
    requires '.' !in a && '.' !in b
    requires '@' !in a && '@' !in b && '@' !in host
    ensures Split(a + ['.'] + b + ['@'] + host, '@') == [a + ['.'] + b, host]
    ensures Split(a + ['.'] + b, '.') == [a, b]
  {
    SplitTwoPieces(a, b, '.');
    SplitTwoPieces(a + ['.'] + b, host, '@');
  }

  /** The `fullname` setter's `first, last = name.split(' ')`: it succeeds exactly when the
      name has one space, and the two parts then rebuild the name. */
  function ParseFullName(name: string): (r: Option<(string, string)>)
    ensures r.Some? <==> Count(name, ' ') == 1
    ensures r.Some? ==> r.value.0 + " " + r.value.1 == name
    ensures r.Some? ==> ' ' !in r.value.0 && ' ' !in r.value.1
  {
    var parts := Split(name, ' ');
    if |parts| == 2 then
      SplitThenJoin(name, ' ');
      JoinTwo(parts[0], parts[1], ' ');
      assert parts == [parts[0], parts[1]];
      Some((parts[0], parts[1]))
    else None
  }

  /** `from_string`'s `first, last, pay = emp_str.split('-')`: it succeeds exactly when the
      string has two dashes, and the three pieces then rebuild the string. */
  function ParseEmpString(s: string): (r: Option<(string, string, string)>)
    ensures r.Some? <==> Count(s, '-') == 2
    ensures r.Some? ==> r.value.0 + "-" + r.value.1 + "-" + r.value.2 == s
    ensures r.Some? ==> '-' !in r.value.0 && '-' !in r.value.1 && '-' !in r.value.2
  {
    var parts := Split(s, '-');
    if |parts| == 3 then
      SplitThenJoin(s, '-');
      JoinThree(parts[0], parts[1], parts[2], '-');
      assert parts == [parts[0], parts[1], parts[2]];
      Some((parts[0], parts[1], parts[2]))
    else None
  }

  /** Setting the full name to the one read from two names succeeds exactly when neither
      name has a space, and then yields those names back. */
  lemma FullNameRoundTrip(first: string, last: string)
    ensures ParseFullName(FullNameOf(Given(first), Given(last))) ==
            if ' ' in first || ' ' in last then None else Some((first, last))
  {
    if ' ' !in first && ' ' !in last {
      JoinTwo(first, last, ' ');
      JoinThenSplit([first, last], ' ');
    }
  }

  /** A string built from three dash-free pieces parses back into those pieces, and one
      built from pieces with a dash in them does not parse. */
  lemma EmpStringRoundTrip(first: string, last: string, pay: string)
    ensures ParseEmpString(first + "-" + last + "-" + pay) ==
            if '-' in first || '-' in last || '-' in pay then None else Some((first, last, pay))
  {
    if '-' !in first && '-' !in last && '-' !in pay {
      JoinThree(first, last, pay, '-');
      JoinThenSplit([first, last, pay], '-');
    }
  }

  /** A day of the week as `datetime.date.weekday()` numbers it: Monday is 0, Sunday 6. */
  type Weekday = d: int | 0 <= d <= 6

  const Saturday: Weekday := 5
  const Sunday: Weekday := 6

  /** `is_workday` as written: the Sunday test compares the method object `day.weekday`,
      not its result, with 6, and a method object never equals an int. */
  function IsWorkday(day: Weekday): (r: bool)
    ensures !r <==> day == Saturday
  {
    var methodObjectIsSix := false;
    !(day == Saturday || methodObjectIsSix)
  }

  /** `is_workday` as evidently intended: false on Saturday and Sunday. */
  function IsWorkdayIntended(day: Weekday): (r: bool)
    ensures !r <==> day == Saturday || day == Sunday
  {
    !(day == Saturday || day == Sunday)
  }

  /** The two versions disagree on Sunday and on no other day. */
  lemma WorkdayDiscrepancy(day: Weekday)
    ensures IsWorkday(day) != IsWorkdayIntended(day) <==> day == Sunday
    ensures IsWorkday(Sunday) && !IsWorkdayIntended(Sunday)
  {
  }

  /** The class attribute `Employee.num_of_emps`, shared by every constructor. */
  class Registry {
    var numOfEmps: nat

    constructor ()
      ensures numOfEmps == 0
    {
      numOfEmps := 0;
    }
  }

  /** A Python list of employee references, which a manager updates in place and may
      share with whoever passed it in. */
  class Roster {
    var items: seq<Employee>

    constructor (items: seq<Employee>)
      ensures this.items == items
    {
      this.items := items;
    }
  }

  /** Which class the object was built as. */
  datatype Role = EmployeeRole | DeveloperRole(progLang: string) | ManagerRole(employees: Roster)

  class Employee {
    var first: Name
    var last: Name
    var pay: Pay
    const role: Role

    /** `Employee(first, last, pay)`. */
    constructor (reg: Registry, first: string, last: string, pay: Pay)
      modifies reg
      ensures this.first == Given(first) && this.last == Given(last) && this.pay == pay
      ensures role == EmployeeRole
      ensures reg.numOfEmps == old(reg.numOfEmps) + 1
    {
      this.first := Given(first);
      this.last := Given(last);
      this.pay := pay;
      role := EmployeeRole;
      new;
      reg.numOfEmps := reg.numOfEmps + 1;
    }

    /** `Developer(first, last, pay, prog_lang)`. */
    constructor Developer(reg: Registry, first: string, last: string, pay: Pay, progLang: string)
      modifies reg
      ensures this.first == Given(first) && this.last == Given(last) && this.pay == pay
      ensures role == DeveloperRole(progLang)
      ensures reg.numOfEmps == old(reg.numOfEmps) + 1
    {
      this.first := Given(first);
      this.last := Given(last);
      this.pay := pay;
      role := DeveloperRole(progLang);
      new;
      reg.numOfEmps := reg.numOfEmps + 1;
    }

    /** `Manager(first, last, pay, employees=None)`: a missing list becomes a new empty
        one; a given list is kept as the same object, not copied. */
    constructor Manager(reg: Registry, first: string, last: string, pay: Pay, employees: Roster?)
      modifies reg
      ensures this.first == Given(first) && this.last == Given(last) && this.pay == pay
      ensures role.ManagerRole?
      ensures employees == null ==> fresh(role.employees) && role.employees.items == []
      ensures employees != null ==> role.employees == employees && employees.items == old(employees.items)
      ensures reg.numOfEmps == old(reg.numOfEmps) + 1
    {
      this.first := Given(first);
      this.last := Given(last);
      this.pay := pay;
      if employees == null {
        var empty := new Roster([]);
        role := ManagerRole(empty);
      } else {
        role := ManagerRole(employees);
      }
      new;
      reg.numOfEmps := reg.numOfEmps + 1;
    }

    /** `Employee.from_string(emp_str)`: splits on dashes and constructs an employee whose
        pay stays a string; any other number of dashes fails before anything is built. */
    static method FromString(reg: Registry, s: string) returns (e: Employee?)
      modifies reg
      ensures e == null <==> Count(s, '-') != 2
      ensures e == null ==> reg.numOfEmps == old(reg.numOfEmps)
      ensures e != null ==> fresh(e) && e.role == EmployeeRole && reg.numOfEmps == old(reg.numOfEmps) + 1
      ensures e != null ==> e.first.Given? && e.last.Given? && e.pay.Str?
      ensures e != null ==> e.first.text + "-" + e.last.text + "-" + e.pay.text == s
      ensures e != null ==> '-' !in e.first.text && '-' !in e.last.text && '-' !in e.pay.text
    {
      match ParseEmpString(s)
      case None =>
        e := null;
      case Some((first, last, pay)) =>
        e := new Employee(reg, first, last, Str(pay));
    }

    /** The `email` property, recomputed from the current names: the first name, a dot
        and the last name, at the company domain. */
    function Email(): (r: string)
      reads this
      ensures |r| > |Domain| && r[|r| - |Domain|..] == Domain
      ensures r[..|r| - |Domain|] == Show(first) + "." + Show(last)
    {
      EmailOf(first, last)
    }

    /** The `fullname` property, recomputed from the current names. When both names are
        strings without a space, assigning what it returns back to `fullname` would set
        the same two names again. */
    function FullName(): (r: string)
      reads this
      ensures first.Given? && last.Given? && ' ' !in first.text && ' ' !in last.text ==>
                ParseFullName(r) == Some((first.text, last.text))
    {
      if first.Given? && last.Given? then
        FullNameRoundTrip(first.text, last.text);
        FullNameOf(first, last)
      else
        FullNameOf(first, last)
    }

    /** The `fullname` setter: on a name with exactly one space, the two parts become the
        first and last names and reading `fullname` gives the name back; on any other
        name it fails (Python raises ValueError) and nothing changes. */
    method SetFullName(name: string) returns (ok: bool)
      modifies this`first, this`last
      ensures ok <==> Count(name, ' ') == 1
      ensures ok ==> first.Given? && last.Given? && ' ' !in first.text && ' ' !in last.text
      ensures ok ==> FullName() == name
      ensures !ok ==> first == old(first) && last == old(last)
    {
      match ParseFullName(name)
      case None =>
        ok := false;
      case Some((f, l)) =>
        first, last := Given(f), Given(l);
        ok := true;
    }

    /** The `fullname` deleter: both names become None; the pay and everything else stay. */
    method DeleteFullName()
      modifies this`first, this`last
      ensures first == Missing && last == Missing
      ensures FullName() == "None None" && Email() == "None.None@company.com"
    {
      first, last := Missing, Missing;
      DeletedAddress();
    }

    /** `Manager.add_emp`: appends `emp` when it is not already on the roster (compared by
        identity), otherwise leaves the roster alone. */
    method AddEmp(emp: Employee)
      requires role.ManagerRole?
      modifies role.employees
      ensures role.employees.items == Added(old(role.employees.items), emp)
    {
      var staff := role.employees;
      if emp !in staff.items {
        staff.items := staff.items + [emp];
      }
    }

    /** `Manager.remove_emp`: removes the first occurrence of `emp` when it is on the roster,
        otherwise leaves the roster alone. */
    method RemoveEmp(emp: Employee)
      requires role.ManagerRole?
      modifies role.employees
      ensures role.employees.items == Removed(old(role.employees.items), emp)
    {
      var staff := role.employees;
      if emp in staff.items {
        staff.items := RemoveFirst(staff.items, emp);
      }
    }
  }
}
