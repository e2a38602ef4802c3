/**
 * The project API client (lib/api.ts): which request each call sends, and
 * how the answer becomes a value or a thrown error. The HTTP transport is not
 * modelled; what it hands back is an input of every call.
 */
module Api {
  import opened Options
  import opened Types
  import Text

  datatype Verb = GET | POST | PUT | DELETE

  /** One HTTP request: verb, path below the API base URL, query parameters, JSON body. */
  datatype Request = Request(verb: Verb, path: string, params: map<string, string>, body: Option<ProjectFormData>)

  /** What the HTTP client settles with: the decoded envelope, or a rejection (no response, or a non-2xx status). */
  datatype Reply<T> = Delivered(response: ApiResponse<T>) | Rejected

  /** Why a call threw: the client rejected, or the envelope came without `data`. */
  datatype Failure = RequestFailed | MissingData(message: string)

  datatype Result<T> = Ok(value: T) | Err(failure: Failure)

  /** A call as a whole: the request it sent and what it returned or threw. */
  datatype Exchange<T> = Exchange(request: Request, result: Result<T>)

  const ProjectsPath := "/projects"
  const NotFoundMessage := "Project not found"
  const CreateFailedMessage := "Failed to create project"
  const UpdateFailedMessage := "Failed to update project"

  /** `/projects/${id}` */
  function ProjectPath(id: int): string {
    ProjectsPath + "/" + Text.IntToDecimal(id)
  }

  /** Each id has its own path, so `update` and `delete` address exactly the project they are given. */
  lemma ProjectPathInjective(a: int, b: int)
    requires ProjectPath(a) == ProjectPath(b)
    ensures a == b
  {
    var n := |ProjectsPath + "/"|;
    assert ProjectPath(a)[n..] == Text.IntToDecimal(a);
    assert ProjectPath(b)[n..] == Text.IntToDecimal(b);
    Text.IntToDecimalInjective(a, b);
  }

  /** The query parameters of `getAll`: a status filter other than `'all'` and a search text, each only when non-empty. */
  function QueryParams(status: Option<string>, search: Option<string>): (params: map<string, string>)
    ensures "status" in params <==> status.Some? && status.value != "" && status.value != "all"
    ensures "status" in params ==> params["status"] == status.value
    ensures "search" in params <==> search.Some? && search.value != ""
    ensures "search" in params ==> params["search"] == search.value
    ensures params.Keys <= {"status", "search"}
  {
    var withStatus: map<string, string> :=
      if status.Some? && status.value != "" && status.value != "all" then map["status" := status.value] else map[];
    if search.Some? && search.value != "" then withStatus["search" := search.value] else withStatus
  }

  function ListRequest(status: Option<string>, search: Option<string>): Request {
    Request(GET, ProjectsPath, QueryParams(status, search), None)
  }

  /** `response.data.data || []`: a list reply never throws for a missing `data`, it defaults to no projects. */
  function ListResult(reply: Reply<seq<Project>>): (r: Result<seq<Project>>)
    ensures r.Ok? <==> reply.Delivered?
    ensures reply.Delivered? && reply.response.data.Some? ==> r.value == reply.response.data.value
    ensures reply.Delivered? && reply.response.data.None? ==> r.value == []
    ensures r.Err? ==> r.failure == RequestFailed
  {
    match reply
    case Rejected => Err(RequestFailed)
    case Delivered(response) => Ok(if response.data.Some? then response.data.value else [])
  }

  /** `getAll(status, search)`: fills the parameter object field by field, then sends the list request. */
  method GetAll(status: Option<string>, search: Option<string>, reply: Reply<seq<Project>>)
    returns (request: Request, result: Result<seq<Project>>)
    ensures request == ListRequest(status, search)
    ensures result == ListResult(reply)
  {
    var params: map<string, string> := map[];
    if status.Some? && status.value != "" && status.value != "all" {
      params := params["status" := status.value];
    }
    if search.Some? && search.value != "" {
      params := params["search" := search.value];
    }
    request := Request(GET, ProjectsPath, params, None);
    match reply {
      case Rejected =>
        result := Err(RequestFailed);
      case Delivered(response) =>
        result := Ok(if response.data.Some? then response.data.value else []);
    }
  }

  /** The shared tail of `getById`, `create` and `update`: throw `message` unless `data` came back, else return it as is. */
  function RequireData<T>(reply: Reply<T>, message: string): (r: Result<T>)
    ensures r.Ok? <==> reply.Delivered? && reply.response.data.Some?
    ensures r.Ok? ==> r.value == reply.response.data.value
    ensures reply.Rejected? ==> r == Err(RequestFailed)
    ensures reply.Delivered? && reply.response.data.None? ==> r == Err(MissingData(message))
  {
    match reply
    case Rejected => Err(RequestFailed)
    case Delivered(response) =>
      if response.data.Some? then Ok(response.data.value) else Err(MissingData(message))
  }

  /** `getById(id)` */
  function GetById(id: int, reply: Reply<Project>): (x: Exchange<Project>)
    ensures x.request.verb == GET && x.request.path == ProjectPath(id) && x.request.body == None
    ensures reply.Rejected? ==> x.result == Err(RequestFailed)
    ensures reply.Delivered? && reply.response.data.None? ==> x.result == Err(MissingData(NotFoundMessage))
    ensures x.result.Ok? <==> reply.Delivered? && reply.response.data.Some?
    ensures x.result.Ok? ==> x.result.value == reply.response.data.value
  {
    Exchange(Request(GET, ProjectPath(id), map[], None), RequireData(reply, NotFoundMessage))
  }

  /** `create(projectData)`: POSTs the form to the collection. */
  function Create(form: ProjectFormData, reply: Reply<Project>): (x: Exchange<Project>)
    ensures x.request.verb == POST && x.request.path == ProjectsPath && x.request.body == Some(form)
    ensures reply.Rejected? ==> x.result == Err(RequestFailed)
    ensures reply.Delivered? && reply.response.data.None? ==> x.result == Err(MissingData(CreateFailedMessage))
    ensures x.result.Ok? <==> reply.Delivered? && reply.response.data.Some?
    ensures x.result.Ok? ==> x.result.value == reply.response.data.value
  {
    Exchange(Request(POST, ProjectsPath, map[], Some(form)), RequireData(reply, CreateFailedMessage))
  }

  /** `update(id, projectData)`: PUTs the form to the project's own path. */
  function Update(id: int, form: ProjectFormData, reply: Reply<Project>): (x: Exchange<Project>)
    ensures x.request.verb == PUT && x.request.path == ProjectPath(id) && x.request.body == Some(form)
    ensures reply.Rejected? ==> x.result == Err(RequestFailed)
    ensures reply.Delivered? && reply.response.data.None? ==> x.result == Err(MissingData(UpdateFailedMessage))
    ensures x.result.Ok? <==> reply.Delivered? && reply.response.data.Some?
    ensures x.result.Ok? ==> x.result.value == reply.response.data.value
  {
    Exchange(Request(PUT, ProjectPath(id), map[], Some(form)), RequireData(reply, UpdateFailedMessage))
  }

  /** `delete(id)`: succeeds whenever the client does; the envelope is not looked at. */
  function Delete<T>(id: int, reply: Reply<T>): (x: Exchange<()>)
    ensures x.request.verb == DELETE && x.request.path == ProjectPath(id) && x.request.body == None
    ensures x.result.Ok? <==> reply.Delivered?
    ensures x.result.Err? ==> x.result.failure == RequestFailed
  {
    Exchange(Request(DELETE, ProjectPath(id), map[], None), if reply.Delivered? then Ok(()) else Err(RequestFailed))
  }

  /** Two delivered delete replies have the same effect, whatever their bodies say. */
  lemma DeleteIgnoresBody<T>(id: int, a: ApiResponse<T>, b: ApiResponse<T>)
    ensures Delete(id, Delivered(a)) == Delete(id, Delivered(b))
  {
  }
}
