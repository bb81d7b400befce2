/** Shared vocabulary of the task manager's service layer: identifiers, time,
    the error kinds the services raise, the enumerations, the persisted
    entities and the two string functions the project rules rely on. */
module Model {

  /** Primary keys (the entities' UUIDs), abstracted to naturals. */
  type Uuid = nat

  /** A point in time, in milliseconds since the epoch. */
  type Instant = int

  const MillisPerSecond: int := 1000
  const SecondsPerHour: int := 3600

  datatype Option<T> = None | Some(value: T)

  /** The exceptions raised by the services, one constructor per class. */
  datatype Error =
    | NotFound         // CustomNotFoundException
    | AlreadyExists    // CustomAlreadyExistException
    | AccessDenied     // CustomAccessDeniedException
    | BadCredentials   // BadCredentialsException("Invalid email or password")
    | TokenExpired     // TokenExpiredException
    | StatusChange     // StatusChangeException
    | IllegalArgument  // IllegalArgumentException: Status.valueOf, findById(null)
    | DateTimeError    // DateTimeException: LocalDateTime.from(Instant)

  datatype Result<T> = Ok(value: T) | Err(error: Error)

  /** Status of a project or a task. */
  datatype Status = ToDo | InProgress | OnHold | Completed

  datatype PriorityLevel = Critical | High | Medium | Low

  datatype UserStatus = Actif | Deleted | Blocked | Completed

  /** The authority labels that occur in the code (TEAM_MEMBER, TEAM_LEADER,
      PROJECT_MANAGER). */
  datatype Role = TeamMember | TeamLeader | ProjectManager

  /** The enum constant's name, as `Status.name()` gives it. */
  function StatusName(s: Status): string {
    match s
    case ToDo => "TO_DO"
    case InProgress => "IN_PROGRESS"
    case OnHold => "ON_HOLD"
    case Completed => "COMPLETED"
  }

  /** `Status.valueOf(name)`: the constant with exactly that name, or
      IllegalArgumentException. */
  function StatusValueOf(name: string): (r: Result<Status>)
    ensures r.Err? ==> r.error == IllegalArgument
    ensures r.Ok? ==> StatusName(r.value) == name
  {
    if name == "TO_DO" then Ok(ToDo)
    else if name == "IN_PROGRESS" then Ok(InProgress)
    else if name == "ON_HOLD" then Ok(OnHold)
    else if name == "COMPLETED" then Ok(Status.Completed)
    else Err(IllegalArgument)
  }

  /** Every status is recognised by its own name: valueOf inverts name. */
  lemma StatusNameRoundTrip(s: Status)
    ensures StatusValueOf(StatusName(s)) == Ok(s)
  {
  }

  /** A user row; `deletedAt` is the soft-delete marker of the base entity. */
  datatype User = User(name: string, email: string, password: string,
                       statut: UserStatus, roles: set<Role>, deletedAt: Option<Instant>)
  {
    predicate Live() { deletedAt.None? }
    function SoftDelete(now: Instant): User { this.(deletedAt := Some(now)) }
  }

  /** A project row; `owner` is the id of its proprietaire. */
  datatype Project = Project(nom: string, description: string, owner: Uuid, statut: Status,
                             dateDebut: Option<Instant>, dateFin: Option<Instant>,
                             deletedAt: Option<Instant>)
  {
    predicate Live() { deletedAt.None? }
    function SoftDelete(now: Instant): Project { this.(deletedAt := Some(now)) }
  }

  /** A task row. Columns that Java leaves nullable by reference are options. */
  datatype Task = Task(titre: Option<string>, description: Option<string>,
                       dateEcheance: Option<Instant>, heuresEstimees: Option<int>,
                       statut: Status, priorite: Option<PriorityLevel>,
                       projet: Uuid, assignee: Uuid, deletedAt: Option<Instant>)
  {
    predicate Live() { deletedAt.None? }
  }

  /** A refresh-token row: the opaque token string, its owner and its expiry. */
  datatype RefreshToken = RefreshToken(token: string, user: Uuid, expiryDate: Instant,
                                       deletedAt: Option<Instant>)
  {
    predicate Live() { deletedAt.None? }
    function SoftDelete(now: Instant): RefreshToken { this.(deletedAt := Some(now)) }
  }

  /** `Character.toUpperCase` on the ASCII letters; other characters are kept. */
  function UpperChar(c: char): char {
    if 'a' <= c <= 'z' then (c as int - 32) as char else c
  }

  /** `String.toUpperCase`. */
  function ToUpperCase(s: string): (r: string)
    ensures |r| == |s|
  {
    if s == [] then [] else [UpperChar(s[0])] + ToUpperCase(s[1..])
  }

  /** `String.equalsIgnoreCase`: same length and, position by position, the
      characters are equal or equal once upper-cased. */
  predicate EqualsIgnoreCase(a: string, b: string) {
    |a| == |b| && forall i :: 0 <= i < |a| ==> a[i] == b[i] || UpperChar(a[i]) == UpperChar(b[i])
  }

  lemma {:induction false} ToUpperCaseAt(s: string, i: nat)
    requires i < |s|
    ensures ToUpperCase(s)[i] == UpperChar(s[i])
  {
    if i > 0 {
      ToUpperCaseAt(s[1..], i - 1);
    }
  }

  /** Upper-casing twice is upper-casing once. */
  lemma {:induction false} ToUpperCaseIdempotent(s: string)
    ensures ToUpperCase(ToUpperCase(s)) == ToUpperCase(s)
  {
    if s != [] {
      ToUpperCaseIdempotent(s[1..]);
      assert ToUpperCase(s)[1..] == ToUpperCase(s[1..]);
    }
  }

  /** Two names are equal ignoring case exactly when their upper-cased forms
      coincide: the check `update` skips and the value `existsByTitle`
      compares are the same notion. */
  lemma EqualsIgnoreCaseIffSameUpper(a: string, b: string)
    ensures EqualsIgnoreCase(a, b) <==> ToUpperCase(a) == ToUpperCase(b)
  {
    if EqualsIgnoreCase(a, b) {
      forall i | 0 <= i < |a| ensures ToUpperCase(a)[i] == ToUpperCase(b)[i] {
        ToUpperCaseAt(a, i);
        ToUpperCaseAt(b, i);
      }
    }
    if ToUpperCase(a) == ToUpperCase(b) {
      forall i | 0 <= i < |a| ensures UpperChar(a[i]) == UpperChar(b[i]) {
        ToUpperCaseAt(a, i);
        ToUpperCaseAt(b, i);
      }
    }
  }
}
