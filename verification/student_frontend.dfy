/**
 * The Streamlit front end of the student management system (frontend.py): a
 * session-held list of student dicts, an add-student form that validates and
 * appends, search by id and by name, and class statistics with the top three
 * students by grade.
 */
module StudentFrontend {
  import opened Students

  /** The bounds the form's number inputs enforce: id ≥ 1, 15 ≤ age ≤ 100, 0 ≤ grade ≤ 100. */
  predicate FormInBounds(id: int, age: int, grade: real) {
    id >= 1 && 15 <= age <= 100 && 0.0 <= grade <= 100.0
  }

  /** A record the form could have produced: inputs in bounds and a non-empty name. */
  predicate FromForm(s: Student) {
    FormInBounds(s.id, s.age, s.grade) && s.name != ""
  }

  /** What pressing "Add Student" shows: one of the two errors, or success. */
  datatype AddOutcome = DuplicateId | NameRequired | Added

  /** `st.session_state.students` together with the form handler that appends to it. */
  class Session {
    var students: seq<Student>

    /** Ids are distinct and every record is one the form could have produced. */
    ghost predicate Valid()
      reads this
    {
      IdsDistinct(students) && forall i :: 0 <= i < |students| ==> FromForm(students[i])
    }

    /** The session starts with the two seed records. */
    constructor ()
      ensures Valid()
      ensures students == SeedStudents()
    {
      students := SeedStudents();
    }

    /**
     * The submit branch of the add form. The duplicate-id check runs first, so a
     * duplicate id is reported even when the name is empty; on either error the
     * list is unchanged; on success exactly the record built from the form fields
     * is appended. `enrollmentDate` is the already formatted date string.
     */
    method SubmitAddForm(id: int, name: string, age: int, grade: real, enrollmentDate: string)
      returns (outcome: AddOutcome)
      requires Valid() && FormInBounds(id, age, grade)
      modifies this
      ensures Valid()
      ensures outcome == DuplicateId <==> old(HasId(students, id))
      ensures outcome == NameRequired <==> !old(HasId(students, id)) && name == ""
      ensures outcome != Added ==> students == old(students)
      ensures outcome == Added ==>
                students == old(students) + [Student(id, name, age, grade, enrollmentDate)]
    {
      if HasId(students, id) {
        outcome := DuplicateId;
      } else if name == "" {
        outcome := NameRequired;
      } else {
        var record := Student(id, name, age, grade, enrollmentDate);
        AppendKeepsIdsDistinct(students, record);
        students := students + [record];
        outcome := Added;
      }
    }
  }

  // ---------------------------------------------------------------------------
  // Search by name: `search_name.lower() in s["name"].lower()`, lowercasing ASCII.

  function LowerChar(c: char): (r: char)
    ensures 'A' <= c <= 'Z' ==> r as int == c as int + 32
    ensures !('A' <= c <= 'Z') ==> r == c
    ensures !('A' <= r <= 'Z')
  {
    if 'A' <= c <= 'Z' then (c as int + 32) as char else c
  }

  function Lower(s: string): (r: string)
    ensures |r| == |s| && forall i :: 0 <= i < |s| ==> r[i] == LowerChar(s[i])
  {
    seq(|s|, i requires 0 <= i < |s| => LowerChar(s[i]))
  }

  /** Lowercasing twice is lowercasing once. */
  lemma LowerIdempotent(s: string)
    ensures Lower(Lower(s)) == Lower(s)
  {
    assert forall i :: 0 <= i < |s| ==> LowerChar(LowerChar(s[i])) == LowerChar(s[i]);
  }

  predicate IsPrefix(p: string, s: string) {
    |p| <= |s| && s[..|p|] == p
  }

  /** Python's `needle in hay` on strings: `needle` occurs somewhere in `hay`. */
  predicate Occurs(needle: string, hay: string)
    decreases |hay|
  {
    IsPrefix(needle, hay) || (hay != [] && Occurs(needle, hay[1..]))
  }

  /** A record matches a query when the lowercased query occurs in its lowercased name. */
  predicate NameMatches(query: string, s: Student) {
    Occurs(Lower(query), Lower(s.name))
  }

  /** The list comprehension of "Search by Name": the matching records, in list order. */
  function SearchByName(ss: seq<Student>, query: string): (r: seq<Student>)
    ensures |r| <= |ss|
    ensures forall x :: x in r ==> x in ss && NameMatches(query, x)
    ensures forall x :: x in ss && NameMatches(query, x) ==> x in r
  {
    if ss == [] then []
    else (if NameMatches(query, ss[0]) then [ss[0]] else []) + SearchByName(ss[1..], query)
  }

  /** The search distributes over concatenation, so it keeps the records in list order. */
  lemma {:induction false} SearchByNameConcat(a: seq<Student>, b: seq<Student>, query: string)
    ensures SearchByName(a + b, query) == SearchByName(a, query) + SearchByName(b, query)
  {
    if a != [] {
      assert (a + b)[0] == a[0] && (a + b)[1..] == a[1..] + b;
      SearchByNameConcat(a[1..], b, query);
      var head := if NameMatches(query, a[0]) then [a[0]] else [];
      assert SearchByName(a + b, query) == head + (SearchByName(a[1..], query) + SearchByName(b, query));
      assert SearchByName(a, query) == head + SearchByName(a[1..], query);
    } else {
      assert a + b == b;
    }
  }

  /** The empty string occurs in every string. */
  lemma EmptyOccurs(hay: string)
    ensures Occurs("", hay)
  {
  }

  /** An empty query matches every record, so it returns the whole list. */
  lemma {:induction false} EmptyQueryMatchesAll(ss: seq<Student>)
    ensures SearchByName(ss, "") == ss
  {
    if ss != [] {
      EmptyOccurs(Lower(ss[0].name));
      EmptyQueryMatchesAll(ss[1..]);
    }
  }

  /** The search ignores the case of the query: a lowercased query finds the same records. */
  lemma {:induction false} SearchIgnoresQueryCase(ss: seq<Student>, query: string)
    ensures SearchByName(ss, Lower(query)) == SearchByName(ss, query)
  {
    LowerIdempotent(query);
    if ss != [] {
      SearchIgnoresQueryCase(ss[1..], query);
    }
  }

  // ---------------------------------------------------------------------------
  // Statistics: count, means and `df.nlargest(3, 'grade')`.

  predicate SortedByGradeDesc(s: seq<Student>) {
    forall i, j :: 0 <= i < j < |s| ==> s[i].grade >= s[j].grade
  }

  /** Inserts `x` before the first record whose grade does not exceed its own. */
  function InsertByGrade(x: Student, t: seq<Student>): (r: seq<Student>)
    requires SortedByGradeDesc(t)
    ensures |r| == |t| + 1 && multiset(r) == multiset(t) + multiset{x}
    ensures SortedByGradeDesc(r)
  {
    if t == [] || x.grade >= t[0].grade then [x] + t
    else
      var rest := InsertByGrade(x, t[1..]);
      assert t == [t[0]] + t[1..];
      HeadDominates(x, t, rest);
      [t[0]] + rest
  }

  /** A record placed before `rest` keeps the order when its grade bounds all of `rest`. */
  lemma HeadDominates(x: Student, t: seq<Student>, rest: seq<Student>)
    requires SortedByGradeDesc(t) && SortedByGradeDesc(rest)
    requires t != [] && x.grade < t[0].grade
    requires multiset(rest) == multiset(t[1..]) + multiset{x}
    ensures SortedByGradeDesc([t[0]] + rest)
  {
    forall k | 0 <= k < |rest| ensures rest[k].grade <= t[0].grade {
      assert rest[k] in multiset(rest);
      if rest[k] != x {
        assert rest[k] in multiset(t[1..]);
        var j :| 0 <= j < |t[1..]| && t[1..][j] == rest[k];
        assert t[j + 1] == rest[k];
      }
    }
    var r := [t[0]] + rest;
    forall i, j | 0 <= i < j < |r| ensures r[i].grade >= r[j].grade {
      assert r[j] == rest[j - 1];
      if i > 0 {
        assert r[i] == rest[i - 1];
      }
    }
  }

  /** Records ordered by grade, highest first, ties kept in list order. */
  function SortByGradeDesc(ss: seq<Student>): (r: seq<Student>)
    ensures |r| == |ss| && multiset(r) == multiset(ss)
    ensures SortedByGradeDesc(r)
  {
    if ss == [] then []
    else
      assert ss == [ss[0]] + ss[1..];
      InsertByGrade(ss[0], SortByGradeDesc(ss[1..]))
  }

  function Min(a: int, b: int): int {
    if a <= b then a else b
  }

  /** `df.nlargest(n, 'grade')`: the first `n` records of the grade ordering. */
  function TopByGrade(ss: seq<Student>, n: nat): (r: seq<Student>)
    ensures |r| == Min(n, |ss|)
    ensures multiset(r) <= multiset(ss)
    ensures SortedByGradeDesc(r)
  {
    var sorted := SortByGradeDesc(ss);
    assert sorted == sorted[..Min(n, |ss|)] + sorted[Min(n, |ss|)..];
    sorted[..Min(n, |ss|)]
  }

  /** In a grade ordering, everything before position `k` outranks everything after it. */
  lemma SplitDominates(s: seq<Student>, k: nat)
    requires k <= |s| && SortedByGradeDesc(s)
    ensures forall x, y :: x in s[..k] && y in s[k..] ==> x.grade >= y.grade
  {
    forall x, y | x in s[..k] && y in s[k..] ensures x.grade >= y.grade {
      var i :| 0 <= i < k && s[..k][i] == x;
      var j :| 0 <= j < |s| - k && s[k..][j] == y;
      assert s[i] == x && s[k + j] == y;
    }
  }

  /** Every listed grade is at least every unlisted grade. */
  lemma TopStudentsDominate(ss: seq<Student>, n: nat)
    ensures forall x, y :: x in TopByGrade(ss, n) && y in multiset(ss) - multiset(TopByGrade(ss, n))
                           ==> x.grade >= y.grade
  {
    var sorted := SortByGradeDesc(ss);
    var k := Min(n, |ss|);
    var top := TopByGrade(ss, n);
    var rest := sorted[k..];
    assert sorted == top + rest;
    assert multiset(ss) - multiset(top) == multiset(rest);
    SplitDominates(sorted, k);
    forall x: Student, y: Student | x in top && y in multiset(ss) - multiset(top) ensures x.grade >= y.grade {
      assert y in rest;
    }
  }

  /** What the Statistics page shows for a non-empty list. */
  datatype ClassStatistics =
    ClassStatistics(totalStudents: nat, averageGrade: real, averageAge: real, topStudents: seq<Student>)

  /**
   * The Statistics page: nothing on an empty list; otherwise the count, the two
   * column means and the (at most three) best records by grade, which outrank
   * every record left out (`TopStudentsDominate`).
   */
  function ComputeStatistics(ss: seq<Student>): (r: Option<ClassStatistics>)
    ensures r.None? <==> ss == []
    ensures r.Some? ==> r.value.totalStudents == |ss|
    ensures r.Some? ==> |r.value.topStudents| == Min(3, |ss|) && |r.value.topStudents| <= 3
    ensures r.Some? ==> multiset(r.value.topStudents) <= multiset(ss)
    ensures r.Some? ==> r.value.topStudents == TopByGrade(ss, 3)
    ensures ss != [] ==> r.Some? && r.value.averageGrade == Mean(Grades(ss))
    ensures ss != [] ==> r.Some? && r.value.averageAge == Mean(Ages(ss))
  {
    if ss == [] then None
    else
      Some(ClassStatistics(|ss|, Mean(Grades(ss)), Mean(Ages(ss)), TopByGrade(ss, 3)))
  }

  /**
   * On a session whose records all came through the form, the average grade lies
   * in [0, 100] and the average age in [15, 100].
   */
  lemma StatisticsWithinFormBounds(s: Session)
    requires s.Valid() && s.students != []
    ensures ComputeStatistics(s.students).Some?
    ensures 0.0 <= ComputeStatistics(s.students).value.averageGrade <= 100.0
    ensures 15.0 <= ComputeStatistics(s.students).value.averageAge <= 100.0
  {
    var ss := s.students;
    assert forall i :: 0 <= i < |ss| ==> FromForm(ss[i]);
    MeanWithin(Grades(ss), 0.0, 100.0);
    MeanWithin(Ages(ss), 15.0, 100.0);
  }
}
