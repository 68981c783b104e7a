/** The closed enumerations shared by the services and the forms. Every
    member is a TypeScript string enum member whose value is its own name. */
module Enums {
  import opened Http

  datatype SubjectType =
    | Math | Physics | Chemistry | Biology | History | Geography
    | Literature | Azerbaijani | Russian | English | IT | Other

  datatype LessonStatus = Draft | Published | Archived

  datatype UserRole = Admin | Teacher | Student

  /** Every subject, in declaration order. */
  const AllSubjects: seq<SubjectType> :=
    [Math, Physics, Chemistry, Biology, History, Geography,
     Literature, Azerbaijani, Russian, English, IT, Other]

  const AllStatuses: seq<LessonStatus> := [Draft, Published, Archived]

  const AllRoles: seq<UserRole> := [Admin, Teacher, Student]

  /** The string value of a subject (what `toString()` yields). */
  function SubjectName(s: SubjectType): (r: string)
    ensures r != ""
  {
    match s
    case Math => "Math"
    case Physics => "Physics"
    case Chemistry => "Chemistry"
    case Biology => "Biology"
    case History => "History"
    case Geography => "Geography"
    case Literature => "Literature"
    case Azerbaijani => "Azerbaijani"
    case Russian => "Russian"
    case English => "English"
    case IT => "IT"
    case Other => "Other"
  }

  function StatusName(s: LessonStatus): (r: string)
    ensures r != ""
  {
    match s
    case Draft => "Draft"
    case Published => "Published"
    case Archived => "Archived"
  }

  function RoleName(r: UserRole): (n: string)
    ensures n != ""
  {
    match r
    case Admin => "Admin"
    case Teacher => "Teacher"
    case Student => "Student"
  }

  /** The enum member whose value is `text`, if any (the inverse of the
      TypeScript `value as SubjectType` cast on a known value). */
  function ParseSubject(text: string): (r: Option<SubjectType>)
    ensures r.Some? ==> SubjectName(r.value) == text
  {
    if text == "Math" then Some(Math)
    else if text == "Physics" then Some(Physics)
    else if text == "Chemistry" then Some(Chemistry)
    else if text == "Biology" then Some(Biology)
    else if text == "History" then Some(History)
    else if text == "Geography" then Some(Geography)
    else if text == "Literature" then Some(Literature)
    else if text == "Azerbaijani" then Some(Azerbaijani)
    else if text == "Russian" then Some(Russian)
    else if text == "English" then Some(English)
    else if text == "IT" then Some(IT)
    else if text == "Other" then Some(Other)
    else None
  }

  function ParseStatus(text: string): (r: Option<LessonStatus>)
    ensures r.Some? ==> StatusName(r.value) == text
  {
    if text == "Draft" then Some(Draft)
    else if text == "Published" then Some(Published)
    else if text == "Archived" then Some(Archived)
    else None
  }

  function ParseRole(text: string): (r: Option<UserRole>)
    ensures r.Some? ==> RoleName(r.value) == text
  {
    if text == "Admin" then Some(Admin)
    else if text == "Teacher" then Some(Teacher)
    else if text == "Student" then Some(Student)
    else None
  }

  /** `SubjectType` has exactly the twelve listed members, each once. */
  lemma SubjectsAreTwelve()
    ensures |AllSubjects| == 12
    ensures forall s: SubjectType :: s in AllSubjects
    ensures forall i, j :: 0 <= i < j < |AllSubjects| ==> AllSubjects[i] != AllSubjects[j]
  {
    forall s: SubjectType ensures s in AllSubjects {
      match s
      case Math => assert AllSubjects[0] == s;
      case Physics => assert AllSubjects[1] == s;
      case Chemistry => assert AllSubjects[2] == s;
      case Biology => assert AllSubjects[3] == s;
      case History => assert AllSubjects[4] == s;
      case Geography => assert AllSubjects[5] == s;
      case Literature => assert AllSubjects[6] == s;
      case Azerbaijani => assert AllSubjects[7] == s;
      case Russian => assert AllSubjects[8] == s;
      case English => assert AllSubjects[9] == s;
      case IT => assert AllSubjects[10] == s;
      case Other => assert AllSubjects[11] == s;
    }
  }

  lemma StatusesAreThree()
    ensures |AllStatuses| == 3
    ensures forall s: LessonStatus :: s in AllStatuses
    ensures forall i, j :: 0 <= i < j < |AllStatuses| ==> AllStatuses[i] != AllStatuses[j]
  {
    forall s: LessonStatus ensures s in AllStatuses {
      match s
      case Draft => assert AllStatuses[0] == s;
      case Published => assert AllStatuses[1] == s;
      case Archived => assert AllStatuses[2] == s;
    }
  }

  lemma RolesAreThree()
    ensures |AllRoles| == 3
    ensures forall r: UserRole :: r in AllRoles
    ensures forall i, j :: 0 <= i < j < |AllRoles| ==> AllRoles[i] != AllRoles[j]
  {
    forall r: UserRole ensures r in AllRoles {
      match r
      case Admin => assert AllRoles[0] == r;
      case Teacher => assert AllRoles[1] == r;
      case Student => assert AllRoles[2] == r;
    }
  }

  /** Encoding a member yields its name, and that name decodes back to the
      member: the string values are distinct and exhaust the enumeration. */
  lemma SubjectRoundTrip(s: SubjectType)
    ensures ParseSubject(SubjectName(s)) == Some(s)
  {
    match s
    case Math =>
    case Physics =>
    case Chemistry =>
    case Biology =>
    case History =>
    case Geography =>
    case Literature =>
    case Azerbaijani =>
    case Russian =>
    case English =>
    case IT =>
    case Other =>
  }

  lemma StatusRoundTrip(s: LessonStatus)
    ensures ParseStatus(StatusName(s)) == Some(s)
  {
  }

  lemma RoleRoundTrip(r: UserRole)
    ensures ParseRole(RoleName(r)) == Some(r)
  {
  }

  lemma SubjectNameInjective(a: SubjectType, b: SubjectType)
    requires SubjectName(a) == SubjectName(b)
    ensures a == b
  {
    SubjectRoundTrip(a);
    SubjectRoundTrip(b);
  }
}
