/**
 * Student records of the student management system, shared by its HTTP back end
 * (main.py) and its Streamlit front end (frontend.py). Both keep an ordered list of
 * records keyed by `id`, start from the same two seed records, look a record up by
 * taking the first one whose id matches, and average grades and ages.
 */
module Students {

  datatype Option<T> = None | Some(value: T)

  /** One record: the five fields of the back end's `Student` model and of the front end's dicts. */
  datatype Student = Student(id: int, name: string, age: int, grade: real, enrollmentDate: string)

  /** The two records both front ends start with. */
  function SeedStudents(): (r: seq<Student>)
    ensures |r| == 2 && IdsDistinct(r)
    ensures r[0].id == 1 && r[1].id == 2
  {
    [ Student(1, "John Doe", 20, 85.5, "2024-01-15"),
      Student(2, "Jane Smith", 19, 92.0, "2024-01-16") ]
  }

  /** Some record of `ss` carries `id` (Python's `any(s.id == id for s in ss)`). */
  predicate HasId(ss: seq<Student>, id: int) {
    exists i :: 0 <= i < |ss| && ss[i].id == id
  }

  /** The table invariant: no two records share an id. */
  predicate IdsDistinct(ss: seq<Student>) {
    forall i, j :: 0 <= i < j < |ss| ==> ss[i].id != ss[j].id
  }

  /** Index of the first record with `id`, or `|ss|` when there is none. */
  function FirstIndex(ss: seq<Student>, id: int): (k: nat)
    ensures k <= |ss|
    ensures k < |ss| ==> ss[k].id == id
    ensures forall j :: 0 <= j < k ==> ss[j].id != id
  {
    if ss == [] then 0
    else if ss[0].id == id then 0
    else 1 + FirstIndex(ss[1..], id)
  }

  /**
   * `next((s for s in ss if s.id == id), None)`: the first record whose id matches,
   * or None when no record does.
   */
  function FindById(ss: seq<Student>, id: int): (r: Option<Student>)
    ensures r.None? <==> !HasId(ss, id)
    ensures r.Some? ==> r.value.id == id && r.value in ss
    ensures r.Some? ==> exists k :: 0 <= k < |ss| && ss[k] == r.value && forall j :: 0 <= j < k ==> ss[j].id != id
  {
    var k := FirstIndex(ss, id);
    if k < |ss| then Some(ss[k]) else None
  }

  /** Appending a record leaves the first match of an id already present where it was. */
  lemma {:induction false} FirstIndexAppend(ss: seq<Student>, s: Student, id: int)
    ensures FirstIndex(ss + [s], id) == (if HasId(ss, id) then FirstIndex(ss, id)
                                        else if s.id == id then |ss| else |ss| + 1)
  {
    if ss != [] {
      assert (ss + [s])[1..] == ss[1..] + [s];
      FirstIndexAppend(ss[1..], s, id);
      if ss[0].id != id {
        if HasId(ss, id) {
          var i :| 0 <= i < |ss| && ss[i].id == id;
          assert ss[1..][i - 1].id == id;
        }
      }
    }
  }

  /**
   * After appending a record with a fresh id, looking that id up yields exactly the
   * new record, and every other lookup is as before.
   */
  lemma FindAfterAppend(ss: seq<Student>, s: Student, id: int)
    requires !HasId(ss, s.id)
    ensures FindById(ss + [s], s.id) == Some(s)
    ensures id != s.id ==> FindById(ss + [s], id) == FindById(ss, id)
  {
    FirstIndexAppend(ss, s, s.id);
    FirstIndexAppend(ss, s, id);
  }

  /** Appending a record with a fresh id keeps the ids pairwise distinct. */
  lemma AppendKeepsIdsDistinct(ss: seq<Student>, s: Student)
    requires IdsDistinct(ss) && !HasId(ss, s.id)
    ensures IdsDistinct(ss + [s])
  {
    forall i, j | 0 <= i < j < |ss + [s]|
      ensures (ss + [s])[i].id != (ss + [s])[j].id
    {
      if j == |ss| {
        assert (ss + [s])[i] == ss[i];
      }
    }
  }

  /** With distinct ids, looking up the id of any record yields that very record. */
  lemma FindByOwnId(ss: seq<Student>, i: nat)
    requires IdsDistinct(ss) && i < |ss|
    ensures FindById(ss, ss[i].id) == Some(ss[i])
  {
    var k := FirstIndex(ss, ss[i].id);
    assert k == i;
  }

  /** Sum of a sequence of numbers, left to right like Python's `sum`. */
  function Sum(xs: seq<real>): real {
    if xs == [] then 0.0 else xs[0] + Sum(xs[1..])
  }

  /** Arithmetic mean (`sum(xs) / len(xs)`, pandas `Series.mean()`), over exact reals. */
  function Mean(xs: seq<real>): real
    requires xs != []
  {
    Sum(xs) / |xs| as real
  }

  /** The mean times the count gives back the sum. */
  lemma MeanTimesCount(xs: seq<real>)
    requires xs != []
    ensures Mean(xs) * |xs| as real == Sum(xs)
  {
  }

  function Grades(ss: seq<Student>): (r: seq<real>)
    ensures |r| == |ss| && forall i :: 0 <= i < |ss| ==> r[i] == ss[i].grade
  {
    seq(|ss|, i requires 0 <= i < |ss| => ss[i].grade)
  }

  function Ages(ss: seq<Student>): (r: seq<real>)
    ensures |r| == |ss| && forall i :: 0 <= i < |ss| ==> r[i] == ss[i].age as real
  {
    seq(|ss|, i requires 0 <= i < |ss| => ss[i].age as real)
  }

  /** A sum of `|xs|` numbers within `[lo, hi]` lies within `[|xs|·lo, |xs|·hi]`. */
  lemma {:induction false} SumWithin(xs: seq<real>, lo: real, hi: real)
    requires forall i :: 0 <= i < |xs| ==> lo <= xs[i] <= hi
    ensures |xs| as real * lo <= Sum(xs) <= |xs| as real * hi
  {
    if xs != [] {
      SumWithin(xs[1..], lo, hi);
    }
  }

  /** The mean of numbers within `[lo, hi]` lies within `[lo, hi]`. */
  lemma MeanWithin(xs: seq<real>, lo: real, hi: real)
    requires xs != []
    requires forall i :: 0 <= i < |xs| ==> lo <= xs[i] <= hi
    ensures lo <= Mean(xs) <= hi
  {
    SumWithin(xs, lo, hi);
    var n := |xs| as real;
    assert n * lo <= Sum(xs) <= n * hi;
    assert Mean(xs) * n == Sum(xs);
  }
}
