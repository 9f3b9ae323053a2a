/**
 * The view-model of the StudentGradeManager app: a list of students with
 * their grades, the two input fields, and the average grade.
 */
module StudentGrades {
  import opened Wrappers

  /** A student and grade; the `Float` grade is a real number here. */
  datatype Student = Student(name: string, grade: real)

  /** The list put in place by `loadSampleData`. */
  const SampleStudents: seq<Student> :=
    [Student("Alice Johnson", 95.0), Student("Bob Smith", 87.0), Student("Carol Davis", 92.0)]

  /** `xs.filter { it != x }` */
  function Without(xs: seq<Student>, x: Student): (r: seq<Student>)
    ensures x !in r
    ensures forall y :: y in r <==> y in xs && y != x
    ensures multiset(r) == multiset(xs)[x := 0]
  {
    if xs == [] then []
    else
      assert xs == [xs[0]] + xs[1..];
      (if xs[0] == x then [] else [xs[0]]) + Without(xs[1..], x)
  }

  /** Filtering keeps the relative order: it distributes over concatenation. */
  lemma {:induction false} WithoutAppend(xs: seq<Student>, ys: seq<Student>, x: Student)
    ensures Without(xs + ys, x) == Without(xs, x) + Without(ys, x)
  {
    if xs == [] {
      assert xs + ys == ys;
    } else {
      var h := if xs[0] == x then [] else [xs[0]];
      assert (xs + ys)[0] == xs[0] && (xs + ys)[1..] == xs[1..] + ys;
      WithoutAppend(xs[1..], ys, x);
      calc {
        Without(xs + ys, x);
        h + Without(xs[1..] + ys, x);
        h + (Without(xs[1..], x) + Without(ys, x));
        (h + Without(xs[1..], x)) + Without(ys, x);
      }
    }
  }

  /** Removing a student who is not in the list changes nothing. */
  lemma {:induction false} WithoutAbsent(xs: seq<Student>, x: Student)
    requires x !in xs
    ensures Without(xs, x) == xs
  {
    if xs != [] {
      assert xs[1..] + [] == xs[1..];
      WithoutAbsent(xs[1..], x);
    }
  }

  /** Removing twice is removing once. */
  lemma WithoutIdempotent(xs: seq<Student>, x: Student)
    ensures Without(Without(xs, x), x) == Without(xs, x)
  {
    WithoutAbsent(Without(xs, x), x);
  }

  /** `sumOf { it.grade }` */
  function Sum(xs: seq<Student>): real {
    if xs == [] then 0.0 else xs[0].grade + Sum(xs[1..])
  }

  /** The sum of grades that all lie in [lo, hi] lies between |xs|*lo and |xs|*hi. */
  lemma {:induction false} SumBounds(xs: seq<Student>, lo: real, hi: real)
    requires forall i :: 0 <= i < |xs| ==> lo <= xs[i].grade <= hi
    ensures |xs| as real * lo <= Sum(xs) <= |xs| as real * hi
  {
    if xs != [] {
      SumBounds(xs[1..], lo, hi);
    }
  }

  /** `calculateGPA`: 0 for an empty list, otherwise the mean grade. */
  function Gpa(xs: seq<Student>): (gpa: real)
    ensures xs == [] ==> gpa == 0.0
    ensures xs != [] ==> gpa * |xs| as real == Sum(xs)
  {
    if xs == [] then 0.0 else Sum(xs) / |xs| as real
  }

  /** The mean lies between the lowest and the highest possible grade. */
  lemma GpaBounds(xs: seq<Student>, lo: real, hi: real)
    requires xs != []
    requires forall i :: 0 <= i < |xs| ==> lo <= xs[i].grade <= hi
    ensures lo <= Gpa(xs) <= hi
  {
    SumBounds(xs, lo, hi);
    var n := |xs| as real;
    assert Gpa(xs) * n == Sum(xs);
  }

  class MainViewModel {
    var students: seq<Student>
    var isLoading: bool
    var newStudentName: string
    var newStudentGrade: string

    constructor ()
      ensures students == [] && !isLoading && newStudentName == "" && newStudentGrade == ""
    {
      students, isLoading, newStudentName, newStudentGrade := [], false, "", "";
    }

    /**
     * `addStudent(name, grade)`, given the outcome of `grade.toFloatOrNull()`:
     * an unparsable grade adds nothing; otherwise one student is appended.
     */
    method AddStudent(name: string, parsedGrade: Option<real>)
      modifies this`students
      ensures parsedGrade.None? ==> students == old(students)
      ensures parsedGrade.Some? ==> students == old(students) + [Student(name, parsedGrade.value)]
    {
      if parsedGrade.Some? {
        students := students + [Student(name, parsedGrade.value)];
      }
    }

    /** `removeStudent`: every entry equal to the argument goes, the rest keep their order. */
    method RemoveStudent(student: Student)
      modifies this`students
      ensures students == Without(old(students), student)
    {
      students := Without(students, student);
    }

    /** `calculateGPA` on the current list. */
    function CalculateGpa(): (gpa: real)
      reads this
      ensures students == [] ==> gpa == 0.0
      ensures students != [] ==> gpa * |students| as real == Sum(students)
    {
      Gpa(students)
    }

    /** `loadSampleData`, with its one-and-a-half-second delay taken as a single step. */
    method LoadSampleData()
      modifies this`students, this`isLoading
      ensures students == SampleStudents && !isLoading
    {
      isLoading := true;
      students := SampleStudents;
      isLoading := false;
    }

    method UpdateNewStudentName(name: string)
      modifies this`newStudentName
      ensures newStudentName == name
    {
      newStudentName := name;
    }

    method UpdateNewStudentGrade(grade: string)
      modifies this`newStudentGrade
      ensures newStudentGrade == grade
    {
      newStudentGrade := grade;
    }
  }
}
