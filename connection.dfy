/**
 * The transport collaborator (`connection`): it creates requests and performs them. Its
 * behaviour is unknown to the client, so every call may succeed or fail; each call is recorded
 * on a trace, which is what the client's operations are specified against.
 */
module Connections {
  import opened Common
  import opened Queries
  import opened Requests
  import opened Entities

  /** Paging information the transport reads from response headers. */
  datatype Pagination = Pagination(total: int, limit: int, offset: int, returned: int)

  const NoPagination := Pagination(0, 0, 0, 0)

  /** The value a response is decoded into: what Go passes to `Do` as a pointer to a typed variable. */
  datatype Payload =
    | IterationList(iterations: seq<Iteration>)
    | StoryList(stories: seq<Story>)
    | ActivityList(activities: seq<Activity>)
    | TaskList(tasks: seq<Task>)
    | CommentList(comments: seq<Comment>)
    | MembershipList(memberships: seq<ProjectMembership>)
    | OneStory(story: Story)
    | OneTask(task: Task)
    | OneComment(comment: Comment)
    | OneBlocker(blocker: Blocker)

  /** Decoding keeps the destination's Go type. */
  predicate SameKind(a: Payload, b: Payload) {
    match a
    case IterationList(_) => b.IterationList?
    case StoryList(_) => b.StoryList?
    case ActivityList(_) => b.ActivityList?
    case TaskList(_) => b.TaskList?
    case CommentList(_) => b.CommentList?
    case MembershipList(_) => b.MembershipList?
    case OneStory(_) => b.OneStory?
    case OneTask(_) => b.OneTask?
    case OneComment(_) => b.OneComment?
    case OneBlocker(_) => b.OneBlocker?
  }

  /** One call on the connection with its arguments and its outcome. */
  datatype Event =
      /** `CreateRequest(verb, path, params)` and the request it made or the error it reported. */
    | Create(verb: string, path: string, params: Option<Params>, created: Result<RequestValue>)
      /** `Do(request, dest)`: the request as sent, the destination's initial value (None for nil),
          its value afterwards, the pagination and the error returned. */
    | Send(request: RequestValue, dest: Option<Payload>, filled: Option<Payload>, pagination: Pagination, err: Option<Error>)

  class Connection {
    var trace: seq<Event>

    constructor ()
      ensures trace == []
    {
      trace := [];
    }

    /** Makes a request for the given method, path and parameters, or fails. */
    method CreateRequest(verb: string, path: string, params: Option<Params>) returns (r: Result<Request>)
      modifies this
      ensures r.Ok? ==> fresh(r.value)
      ensures r.Ok? ==> r.value.verb == verb && r.value.path == path && r.value.params == params
      ensures trace == old(trace) + [Create(verb, path, params, Snapshot(r))]
    {
      if * {
        var header: Header := *;
        var body: Option<Bytes> := *;
        var request := new Request(verb, path, params, header, body);
        r := Ok(request);
      } else {
        var e: Error := *;
        r := Err(e);
      }
      trace := trace + [Create(verb, path, params, Snapshot(r))];
    }

    /** Performs the request, decoding the response into the destination when there is one. */
    method Do(request: Request, dest: Option<Payload>) returns (filled: Option<Payload>, pagination: Pagination, err: Option<Error>)
      modifies this
      ensures filled.Some? <==> dest.Some?
      ensures dest.Some? ==> SameKind(dest.value, filled.value)
      ensures trace == old(trace) + [Send(request.Value(), dest, filled, pagination, err)]
    {
      filled := None;
      if dest.Some? {
        var decoded: Payload := *;
        if !SameKind(dest.value, decoded) {
          decoded := dest.value;
        }
        filled := Some(decoded);
      }
      pagination := *;
      err := *;
      trace := trace + [Send(request.Value(), dest, filled, pagination, err)];
    }
  }
}
