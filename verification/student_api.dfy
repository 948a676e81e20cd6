/**
 * The HTTP back end of the student management system (main.py): a module-level list
 * of student records, appended to by POST /students/ and read by the three GET
 * endpoints. HTTP errors (400, 404) are modelled as error results.
 */
module StudentApi {
  import opened Students

  /** The two HTTP errors the endpoints raise. */
  datatype ApiError = BadRequest(detail: string) | NotFound(detail: string)

  datatype Result<T> = Ok(value: T) | Err(error: ApiError)

  /** The HTTP status code each error is reported with. */
  function StatusCode(e: ApiError): (code: int)
    ensures code == 400 <==> e.BadRequest?
    ensures code == 404 <==> e.NotFound?
  {
    match e
    case BadRequest(_) => 400
    case NotFound(_) => 404
  }

  /** The body of GET /statistics/. */
  datatype Statistics = Statistics(averageGrade: real, totalStudents: nat, averageAge: real)

  /** The module-level `students` list, with the endpoints that read and append to it. */
  class Registry {
    var students: seq<Student>

    /** Ids stay pairwise distinct: the seed ids differ, and add appends only fresh ids. */
    ghost predicate Valid()
      reads this
    {
      IdsDistinct(students)
    }

    constructor ()
      ensures Valid()
      ensures students == SeedStudents()
    {
      students := SeedStudents();
    }

    /** GET /students/: the whole list, in insertion order. */
    function GetAllStudents(): (r: seq<Student>)
      reads this
      ensures |r| == |students| && forall i :: 0 <= i < |r| ==> r[i] == students[i]
    {
      students
    }

    /** GET /students/{id}: the first record whose id matches, or 404. */
    function GetStudent(id: int): (r: Result<Student>)
      reads this
      ensures r.Err? <==> !HasId(students, id)
      ensures r.Err? ==> StatusCode(r.error) == 404 && r.error.detail == "Student not found"
      ensures r.Ok? ==> r.value.id == id && r.value in students
      ensures r.Ok? && IdsDistinct(students) ==> forall s :: s in students && s.id == id ==> s == r.value
    {
      match FindById(students, id)
      case None => Err(NotFound("Student not found"))
      case Some(s) => Ok(s)
    }

    /**
     * POST /students/: a duplicate id is refused with 400 and nothing changes;
     * otherwise the record is appended at the end and returned.
     */
    method AddStudent(student: Student) returns (r: Result<Student>)
      requires Valid()
      modifies this
      ensures Valid()
      ensures old(HasId(students, student.id)) ==>
                r.Err? && StatusCode(r.error) == 400 && r.error.detail == "Student ID already exists"
                && students == old(students)
      ensures !old(HasId(students, student.id)) ==>
                r == Ok(student) && students == old(students) + [student]
      ensures r.Ok? ==> GetStudent(student.id) == Ok(student)
    {
      if HasId(students, student.id) {
        return Err(BadRequest("Student ID already exists"));
      }
      AppendKeepsIdsDistinct(students, student);
      FindAfterAppend(students, student, student.id);
      students := students + [student];
      r := Ok(student);
    }

    /**
     * GET /statistics/: all zero on an empty list; otherwise the count and the
     * means of the grades and of the ages.
     */
    function GetStatistics(): (r: Statistics)
      reads this
      ensures r.totalStudents == |students|
      ensures students == [] ==> r.averageGrade == 0.0 && r.averageAge == 0.0
      ensures students != [] ==>
                r.averageGrade * |students| as real == Sum(Grades(students)) &&
                r.averageAge * |students| as real == Sum(Ages(students))
    {
      if students == [] then Statistics(0.0, 0, 0.0)
      else Statistics(Mean(Grades(students)), |students|, Mean(Ages(students)))
    }
  }

  /**
   * The averages reported by the statistics endpoint respect every bound that all
   * the grades (ages) respect: each mean lies between the extremes of its column.
   */
  lemma StatisticsWithinRange(r: Registry, gLo: real, gHi: real, aLo: int, aHi: int)
    requires r.students != []
    requires forall s :: s in r.students ==> gLo <= s.grade <= gHi && aLo <= s.age <= aHi
    ensures gLo <= r.GetStatistics().averageGrade <= gHi
    ensures aLo as real <= r.GetStatistics().averageAge <= aHi as real
  {
    var ss := r.students;
    forall i | 0 <= i < |ss| ensures gLo <= Grades(ss)[i] <= gHi && aLo as real <= Ages(ss)[i] <= aHi as real {
      assert ss[i] in ss;
    }
    MeanWithin(Grades(ss), gLo, gHi);
    MeanWithin(Ages(ss), aLo as real, aHi as real);
  }
}
