/** The records the dashboard exchanges with its API (types/project.ts, types/auth.ts). */
module Types {
  import opened Options

  /** A project's status: one of the three string literals `'active' | 'on hold' | 'completed'`. */
  datatype Status = Active | OnHold | Completed

  /** The string value each status travels as; `OnHold` has a space in it. */
  function StatusText(s: Status): (t: string)
    ensures t != "" && t != "all"
  {
    match s
    case Active => "active"
    case OnHold => "on hold"
    case Completed => "completed"
  }

  /** Distinct statuses travel as distinct strings. */
  lemma StatusTextInjective(a: Status, b: Status)
    requires StatusText(a) == StatusText(b)
    ensures a == b
  {
    match a
    case Active =>
    case OnHold => assert StatusText(a)[2] == ' ';
    case Completed => assert |StatusText(a)| == 9;
  }

  /**
   * A stored project. `budget` is a JavaScript number; only its comparison
   * with 0 matters to the core, so it is a `real` here.
   */
  datatype Project = Project(
    id: int,
    name: string,
    status: Status,
    deadline: string,
    assignedTeamMember: string,
    budget: real,
    createdAt: Option<string>,
    updatedAt: Option<string>)

  /** What the add/edit form edits and submits. */
  datatype ProjectFormData = ProjectFormData(
    name: string,
    status: Status,
    deadline: string,
    assignedTeamMember: string,
    budget: real)

  /** The envelope every API endpoint answers with; `data` is optional. */
  datatype ApiResponse<T> = ApiResponse(
    success: bool,
    data: Option<T>,
    count: Option<int>,
    message: Option<string>,
    error: Option<string>)

  /** The signed-in user. */
  datatype User = User(id: int, email: string, name: string, createdAt: Option<string>)
}
