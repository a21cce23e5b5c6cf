/** `TestDetails` from `src/django_perf_rec/utils.py`: where a test lives, as the
    recorder finds it. How it is found (walking the call stack) is not part of this
    model; `TestDetails` values are given. */
module PerfRecUtils {
  import opened PyBase

  datatype TestDetails = TestDetails(filePath: string, className: Option<string>, testName: string)

  /** The right operand of `==`: a `TestDetails`, or any other object. */
  datatype Operand = Details(details: TestDetails) | OtherObject

  /** What `__eq__` returns: a boolean, or `NotImplemented` for a foreign operand. */
  datatype EqResult = Bool(b: bool) | NotImplemented

  /** `TestDetails.__eq__(self, other)`. */
  function Equals(self: TestDetails, other: Operand): (r: EqResult)
    ensures other.OtherObject? <==> r == NotImplemented
    ensures other.Details? ==> (r == Bool(true) <==> self == other.details)
    ensures other.Details? ==> (r == Bool(false) <==> self != other.details)
  {
    match other
    case OtherObject => NotImplemented
    case Details(d) =>
      Bool(self.filePath == d.filePath && self.className == d.className && self.testName == d.testName)
  }
}
