/**
 * `ProjectClient`: the operations on one project's resources. Each operation builds a
 * project-scoped path, creates a request through the connection, attaches a JSON body when it
 * sends one, performs the request with `Do` and shapes the result. The connection records
 * every call, so each operation is specified by the events it adds to the trace.
 */
module Client {
  import opened Common
  import opened Decimal
  import opened Paths
  import opened Queries
  import opened Requests
  import opened Entities
  import opened Connections

  /** The `encoding/json` encoder, which is not part of this model: an opaque map from records to bytes. */
  datatype JsonEncoder = JsonEncoder(
    story: Story -> Bytes,
    task: Task -> Bytes,
    comment: Comment -> Bytes,
    blocker: Blocker -> Bytes)

  /** The body DeliverStory sends. */
  const DeliveredBody: string := "{\"current_state\":\"delivered\"}"

  lemma DeliveredBodyIsAscii()
    ensures IsAscii(DeliveredBody)
  {
  }

  const DeliveredBytes: Bytes := AsBytes(DeliveredBody)

  /** The request as sent: as created, or with the JSON body attached when there is one. */
  function Attached(r: RequestValue, body: Option<Bytes>): RequestValue {
    match body
    case None => r
    case Some(b) => WithJSONBody(r, b)
  }

  /**
   * The events of one operation: a CreateRequest with the given method, path and parameters;
   * when it fails, nothing else; when it succeeds, exactly one Do on the created request (with
   * the body attached if one is given) into the given destination.
   */
  predicate CreateThenSend(e: seq<Event>, verb: string, path: string, params: Option<Params>, body: Option<Bytes>, dest: Option<Payload>) {
    && |e| > 0
    && e[0].Create?
    && e[0].verb == verb && e[0].path == path && e[0].params == params
    && (e[0].created.Ok? ==>
          e[0].created.value.verb == verb && e[0].created.value.path == path && e[0].created.value.params == params)
    && (if e[0].created.Err? then |e| == 1
        else |e| == 2 && e[1].Send? && e[1].request == Attached(e[0].created.value, body) && e[1].dest == dest)
  }

  /** The number of events a CreateThenSend sequence starting at e[0] has. */
  function RoundTripLength(e: seq<Event>): nat
    requires |e| > 0 && e[0].Create?
  {
    if e[0].created.Err? then 1 else 2
  }

  /** The error of a CreateThenSend sequence: the creation error, else the error Do returned. */
  function Failure(e: seq<Event>): Option<Error>
    requires |e| > 0 && e[0].Create?
    requires e[0].created.Ok? ==> |e| > 1 && e[1].Send?
  {
    if e[0].created.Err? then Some(e[0].created.error) else e[1].err
  }

  /**
   * Two operations in a row, the second run only when the first reported no error: the trace
   * splits at the end of the first round trip into the two operations' events.
   */
  lemma Sequenced(e: seq<Event>, first: seq<Event>, second: seq<Event>,
                  verb1: string, path1: string, body1: Option<Bytes>,
                  verb2: string, path2: string, body2: Option<Bytes>, err: Option<Error>)
    requires CreateThenSend(first, verb1, path1, None, body1, None)
    requires Failure(first).Some? ==> second == [] && err == Failure(first)
    requires Failure(first).None? ==> CreateThenSend(second, verb2, path2, None, body2, None) && err == Failure(second)
    requires e == first + second
    ensures |e| > 0 && e[0].Create? && RoundTripLength(e) <= |e|
    ensures var k := RoundTripLength(e);
      && CreateThenSend(e[..k], verb1, path1, None, body1, None)
      && (Failure(e[..k]).Some? ==> |e| == k && err == Failure(e[..k]))
      && (Failure(e[..k]).None? ==>
            && CreateThenSend(e[k..], verb2, path2, None, body2, None)
            && err == Failure(e[k..]))
  {
  }

  /** The error UpdateStory reports: the creation error only. */
  function CreationFailure(e: seq<Event>): Option<Error>
    requires |e| > 0 && e[0].Create?
  {
    if e[0].created.Err? then Some(e[0].created.error) else None
  }

  /**
   * A delivery that got past request creation sends exactly one request: a PUT on the story's
   * scoped path, without parameters, carrying the delivered-state JSON and a JSON content type.
   */
  lemma DeliveryRequest(e: seq<Event>, id: int, storyId: int)
    requires CreateThenSend(e, "PUT", ProjectPath(id, StoryPath(storyId, "")), None, Some(DeliveredBytes), None)
    requires e[0].created.Ok?
    ensures |e| == 2 && e[1].Send? && e[1].dest == None
    ensures e[1].request.verb == "PUT" && e[1].request.path == ProjectPath(id, StoryPath(storyId, "")) && e[1].request.params == None
    ensures e[1].request.body == Some(DeliveredBytes)
    ensures |e[1].request.body.value| == |DeliveredBody|
    ensures ApplicationJson in HeaderValues(e[1].request.header, ContentType)
  {
  }

  /**
   * UpdateStory as written reports no error when the request was created but Do failed: here
   * is such a run, where the error Do returned is lost.
   */
  lemma UpdateStoryHidesDoFailure(id: int, story: Story, encode: JsonEncoder)
    ensures
      var path := ProjectPath(id, StoryPath(story.id, ""));
      var created := RequestValue("PUT", path, None, map[], None);
      var doErr := Error("500 Internal Server Error");
      var e := [Create("PUT", path, None, Ok(created)),
                Send(WithJSONBody(created, encode.story(story)), Some(OneStory(ZeroStory)), Some(OneStory(ZeroStory)), NoPagination, Some(doErr))];
      && CreateThenSend(e, "PUT", path, None, Some(encode.story(story)), Some(OneStory(ZeroStory)))
      && CreationFailure(e) == None
      && Failure(e) == Some(doErr)
  {
  }

  class ProjectClient {
    const id: int
    const conn: Connection
    const encode: JsonEncoder

    constructor (id: int, conn: Connection, encode: JsonEncoder)
      ensures this.id == id && this.conn == conn && this.encode == encode
    {
      this.id := id;
      this.conn := conn;
      this.encode := encode;
    }

    /** Creates a request on the project-scoped path; method and parameters pass through unchanged. */
    method CreateRequest(verb: string, path: string, params: Option<Params>) returns (r: Result<Request>)
      modifies conn
      ensures r.Ok? ==> fresh(r.value)
      ensures r.Ok? ==> r.value.verb == verb && r.value.path == ProjectPath(id, path) && r.value.params == params
      ensures conn.trace == old(conn.trace) + [Create(verb, ProjectPath(id, path), params, Snapshot(r))]
    {
      r := conn.CreateRequest(verb, ProjectPath(id, path), params);
    }

    /** Adds one `Content-Type: application/json` header entry and installs the body. */
    method AddJSONBodyReader(request: Request, body: Bytes)
      modifies request
      ensures request.Value() == WithJSONBody(old(request.Value()), body)
    {
      request.header := AddHeader(request.header, ContentType, ApplicationJson);
      request.body := Some(body);
    }

    /** AddJSONBodyReader with the bytes of an ASCII string. */
    method AddJSONBody(request: Request, body: string)
      requires IsAscii(body)
      modifies request
      ensures request.Value() == WithJSONBody(old(request.Value()), AsBytes(body))
    {
      AddJSONBodyReader(request, AsBytes(body));
    }

    /** GET /iterations with the query's parameters; nothing and zero pagination on any error. */
    method Iterations(query: IterationsQuery) returns (iterations: seq<Iteration>, pagination: Pagination, err: Option<Error>)
      modifies conn
      ensures old(conn.trace) <= conn.trace
      ensures var e := conn.trace[|old(conn.trace)|..];
        && CreateThenSend(e, "GET", ProjectPath(id, "/iterations"), Some(IterationsParams(query)), None, Some(IterationList([])))
        && err == Failure(e)
        && (if err.Some? then iterations == [] && pagination == NoPagination
            else e[1].filled == Some(IterationList(iterations)) && pagination == e[1].pagination)
    {
      var params := query.Query();
      var request := CreateRequest("GET", "/iterations", Some(params));
      if request.Err? {
        return [], NoPagination, Some(request.error);
      }
      var filled, p, doErr := conn.Do(request.value, Some(IterationList([])));
      if doErr.Some? {
        return [], NoPagination, doErr;
      }
      return filled.value.iterations, p, None;
    }

    /** GET /stories with the parameters StoriesQuery.Query() built; nothing and zero pagination on any error. */
    method Stories(query: Params) returns (stories: seq<Story>, pagination: Pagination, err: Option<Error>)
      modifies conn
      ensures old(conn.trace) <= conn.trace
      ensures var e := conn.trace[|old(conn.trace)|..];
        && CreateThenSend(e, "GET", ProjectPath(id, "/stories"), Some(query), None, Some(StoryList([])))
        && err == Failure(e)
        && (if err.Some? then stories == [] && pagination == NoPagination
            else e[1].filled == Some(StoryList(stories)) && pagination == e[1].pagination)
    {
      var request := CreateRequest("GET", "/stories", Some(query));
      if request.Err? {
        return [], NoPagination, Some(request.error);
      }
      var filled, p, doErr := conn.Do(request.value, Some(StoryList([])));
      if doErr.Some? {
        return [], NoPagination, doErr;
      }
      return filled.value.stories, p, None;
    }

    /** GET /stories/<id>/activity; after a Do error, whatever Do decoded is still returned. */
    method StoryActivity(storyId: int, query: Params) returns (activities: seq<Activity>, err: Option<Error>)
      modifies conn
      ensures old(conn.trace) <= conn.trace
      ensures var e := conn.trace[|old(conn.trace)|..];
        && CreateThenSend(e, "GET", ProjectPath(id, StoryPath(storyId, "/activity")), Some(query), None, Some(ActivityList([])))
        && err == Failure(e)
        && (if e[0].created.Err? then activities == [] else e[1].filled == Some(ActivityList(activities)))
    {
      var request := CreateRequest("GET", StoryPath(storyId, "/activity"), Some(query));
      if request.Err? {
        return [], Some(request.error);
      }
      var filled, _, doErr := conn.Do(request.value, Some(ActivityList([])));
      return filled.value.activities, doErr;
    }

    /** GET /stories/<id>/tasks; after a Do error, whatever Do decoded is still returned. */
    method StoryTasks(storyId: int, query: Params) returns (tasks: seq<Task>, err: Option<Error>)
      modifies conn
      ensures old(conn.trace) <= conn.trace
      ensures var e := conn.trace[|old(conn.trace)|..];
        && CreateThenSend(e, "GET", ProjectPath(id, StoryPath(storyId, "/tasks")), Some(query), None, Some(TaskList([])))
        && err == Failure(e)
        && (if e[0].created.Err? then tasks == [] else e[1].filled == Some(TaskList(tasks)))
    {
      var request := CreateRequest("GET", StoryPath(storyId, "/tasks"), Some(query));
      if request.Err? {
        return [], Some(request.error);
      }
      var filled, _, doErr := conn.Do(request.value, Some(TaskList([])));
      return filled.value.tasks, doErr;
    }

    /** GET /stories/<id>/comments; after a Do error, whatever Do decoded is still returned. */
    method StoryComments(storyId: int, query: Params) returns (comments: seq<Comment>, err: Option<Error>)
      modifies conn
      ensures old(conn.trace) <= conn.trace
      ensures var e := conn.trace[|old(conn.trace)|..];
        && CreateThenSend(e, "GET", ProjectPath(id, StoryPath(storyId, "/comments")), Some(query), None, Some(CommentList([])))
        && err == Failure(e)
        && (if e[0].created.Err? then comments == [] else e[1].filled == Some(CommentList(comments)))
    {
      var request := CreateRequest("GET", StoryPath(storyId, "/comments"), Some(query));
      if request.Err? {
        return [], Some(request.error);
      }
      var filled, _, doErr := conn.Do(request.value, Some(CommentList([])));
      return filled.value.comments, doErr;
    }

    /**
     * Delivers the story, then posts the comment. When delivery fails nothing more is done and its
     * error is returned; otherwise the comment's POST follows and its error is returned, with no
     * undoing of the delivery.
     */
    method DeliverStoryWithComment(storyId: int, comment: string) returns (err: Option<Error>)
      modifies conn
      ensures old(conn.trace) <= conn.trace
      ensures var e := conn.trace[|old(conn.trace)|..];
        && |e| > 0 && e[0].Create? && RoundTripLength(e) <= |e|
        && var k := RoundTripLength(e);
        && CreateThenSend(e[..k], "PUT", ProjectPath(id, StoryPath(storyId, "")), None, Some(DeliveredBytes), None)
        && (Failure(e[..k]).Some? ==> |e| == k && err == Failure(e[..k]))
        && (Failure(e[..k]).None? ==>
              && CreateThenSend(e[k..], "POST", ProjectPath(id, StoryPath(storyId, "/comments")), None,
                                Some(encode.comment(ZeroComment.(text := comment))), None)
              && err == Failure(e[k..]))
    {
      ghost var before := conn.trace;
      err := DeliverStory(storyId);
      ghost var delivery := conn.trace[|before|..];
      assert conn.trace == before + delivery;
      ghost var posting: seq<Event> := [];
      if err.None? {
        ghost var middle := conn.trace;
        err := PostStoryComment(storyId, comment);
        posting := conn.trace[|middle|..];
      }
      assert conn.trace[|before|..] == delivery + posting;
      Sequenced(conn.trace[|before|..], delivery, posting,
                "PUT", ProjectPath(id, StoryPath(storyId, "")), Some(DeliveredBytes),
                "POST", ProjectPath(id, StoryPath(storyId, "/comments")), Some(encode.comment(ZeroComment.(text := comment))), err);
    }

    /** The comment POST DeliverStoryWithComment makes once delivery succeeded: a Comment holding only the text. */
    method PostStoryComment(storyId: int, comment: string) returns (err: Option<Error>)
      modifies conn
      ensures old(conn.trace) <= conn.trace
      ensures var e := conn.trace[|old(conn.trace)|..];
        && CreateThenSend(e, "POST", ProjectPath(id, StoryPath(storyId, "/comments")), None,
                          Some(encode.comment(ZeroComment.(text := comment))), None)
        && err == Failure(e)
    {
      var request := CreateRequest("POST", StoryPath(storyId, "/comments"), None);
      if request.Err? {
        return Some(request.error);
      }
      AddJSONBodyReader(request.value, encode.comment(ZeroComment.(text := comment)));
      var _, _, doErr := conn.Do(request.value, None);
      return doErr;
    }

    /** PUT /stories/<id> with body {"current_state":"delivered"} and no destination. */
    method DeliverStory(storyId: int) returns (err: Option<Error>)
      modifies conn
      ensures old(conn.trace) <= conn.trace
      ensures var e := conn.trace[|old(conn.trace)|..];
        && CreateThenSend(e, "PUT", ProjectPath(id, StoryPath(storyId, "")), None, Some(DeliveredBytes), None)
        && err == Failure(e)
    {
      var request := CreateRequest("PUT", StoryPath(storyId, ""), None);
      if request.Err? {
        return Some(request.error);
      }
      DeliveredBodyIsAscii();
      AddJSONBody(request.value, DeliveredBody);
      var _, _, doErr := conn.Do(request.value, None);
      return doErr;
    }

    /** POST /stories with the story's JSON; returns what Do decoded, the zero story if creation failed. */
    method CreateStory(story: Story) returns (created: Story, err: Option<Error>)
      modifies conn
      ensures old(conn.trace) <= conn.trace
      ensures var e := conn.trace[|old(conn.trace)|..];
        && CreateThenSend(e, "POST", ProjectPath(id, "/stories"), None, Some(encode.story(story)), Some(OneStory(ZeroStory)))
        && err == Failure(e)
        && (if e[0].created.Err? then created == ZeroStory else e[1].filled == Some(OneStory(created)))
    {
      var request := CreateRequest("POST", "/stories", None);
      if request.Err? {
        return ZeroStory, Some(request.error);
      }
      AddJSONBodyReader(request.value, encode.story(story));
      var filled, _, doErr := conn.Do(request.value, Some(OneStory(ZeroStory)));
      return filled.value.story, doErr;
    }

    /** PUT /stories/<story.id> with the story's JSON. As written, Do's error is dropped: only a creation error is reported. */
    method UpdateStory(story: Story) returns (updated: Story, err: Option<Error>)
      modifies conn
      ensures old(conn.trace) <= conn.trace
      ensures var e := conn.trace[|old(conn.trace)|..];
        && CreateThenSend(e, "PUT", ProjectPath(id, StoryPath(story.id, "")), None, Some(encode.story(story)), Some(OneStory(ZeroStory)))
        && err == CreationFailure(e)
        && (if e[0].created.Err? then updated == ZeroStory else e[1].filled == Some(OneStory(updated)))
    {
      var request := CreateRequest("PUT", StoryPath(story.id, ""), None);
      if request.Err? {
        return ZeroStory, Some(request.error);
      }
      AddJSONBodyReader(request.value, encode.story(story));
      var filled, _, _ := conn.Do(request.value, Some(OneStory(ZeroStory)));
      return filled.value.story, None;
    }

    /** UpdateStory returning Do's error as every other operation does. */
    method UpdateStoryReportingFailure(story: Story) returns (updated: Story, err: Option<Error>)
      modifies conn
      ensures old(conn.trace) <= conn.trace
      ensures var e := conn.trace[|old(conn.trace)|..];
        && CreateThenSend(e, "PUT", ProjectPath(id, StoryPath(story.id, "")), None, Some(encode.story(story)), Some(OneStory(ZeroStory)))
        && err == Failure(e)
        && (if e[0].created.Err? then updated == ZeroStory else e[1].filled == Some(OneStory(updated)))
    {
      var request := CreateRequest("PUT", StoryPath(story.id, ""), None);
      if request.Err? {
        return ZeroStory, Some(request.error);
      }
      AddJSONBodyReader(request.value, encode.story(story));
      var filled, _, doErr := conn.Do(request.value, Some(OneStory(ZeroStory)));
      return filled.value.story, doErr;
    }

    /** DELETE /stories/<id>, no body and no destination. */
    method DeleteStory(storyId: int) returns (err: Option<Error>)
      modifies conn
      ensures old(conn.trace) <= conn.trace
      ensures var e := conn.trace[|old(conn.trace)|..];
        && CreateThenSend(e, "DELETE", ProjectPath(id, StoryPath(storyId, "")), None, None, None)
        && err == Failure(e)
    {
      var request := CreateRequest("DELETE", StoryPath(storyId, ""), None);
      if request.Err? {
        return Some(request.error);
      }
      var _, _, doErr := conn.Do(request.value, None);
      return doErr;
    }

    /** POST /stories/<id>/tasks with the task's JSON; returns what Do decoded, the zero task if creation failed. */
    method CreateTask(storyId: int, task: Task) returns (created: Task, err: Option<Error>)
      modifies conn
      ensures old(conn.trace) <= conn.trace
      ensures var e := conn.trace[|old(conn.trace)|..];
        && CreateThenSend(e, "POST", ProjectPath(id, StoryPath(storyId, "/tasks")), None, Some(encode.task(task)), Some(OneTask(ZeroTask)))
        && err == Failure(e)
        && (if e[0].created.Err? then created == ZeroTask else e[1].filled == Some(OneTask(created)))
    {
      var request := CreateRequest("POST", StoryPath(storyId, "/tasks"), None);
      if request.Err? {
        return ZeroTask, Some(request.error);
      }
      AddJSONBodyReader(request.value, encode.task(task));
      var filled, _, doErr := conn.Do(request.value, Some(OneTask(ZeroTask)));
      return filled.value.task, doErr;
    }

    /** POST /stories/<id>/comments with the comment's JSON; returns what Do decoded, the zero comment if creation failed. */
    method CreateComment(storyId: int, comment: Comment) returns (created: Comment, err: Option<Error>)
      modifies conn
      ensures old(conn.trace) <= conn.trace
      ensures var e := conn.trace[|old(conn.trace)|..];
        && CreateThenSend(e, "POST", ProjectPath(id, StoryPath(storyId, "/comments")), None, Some(encode.comment(comment)), Some(OneComment(ZeroComment)))
        && err == Failure(e)
        && (if e[0].created.Err? then created == ZeroComment else e[1].filled == Some(OneComment(created)))
    {
      var request := CreateRequest("POST", StoryPath(storyId, "/comments"), None);
      if request.Err? {
        return ZeroComment, Some(request.error);
      }
      AddJSONBodyReader(request.value, encode.comment(comment));
      var filled, _, doErr := conn.Do(request.value, Some(OneComment(ZeroComment)));
      return filled.value.comment, doErr;
    }

    /** POST /stories/<id>/blockers with the blocker's JSON; returns what Do decoded, the zero blocker if creation failed. */
    method CreateBlocker(storyId: int, blocker: Blocker) returns (created: Blocker, err: Option<Error>)
      modifies conn
      ensures old(conn.trace) <= conn.trace
      ensures var e := conn.trace[|old(conn.trace)|..];
        && CreateThenSend(e, "POST", ProjectPath(id, StoryPath(storyId, "/blockers")), None, Some(encode.blocker(blocker)), Some(OneBlocker(ZeroBlocker)))
        && err == Failure(e)
        && (if e[0].created.Err? then created == ZeroBlocker else e[1].filled == Some(OneBlocker(created)))
    {
      var request := CreateRequest("POST", StoryPath(storyId, "/blockers"), None);
      if request.Err? {
        return ZeroBlocker, Some(request.error);
      }
      AddJSONBodyReader(request.value, encode.blocker(blocker));
      var filled, _, doErr := conn.Do(request.value, Some(OneBlocker(ZeroBlocker)));
      return filled.value.blocker, doErr;
    }

    /** GET /memberships without parameters; an empty list on any error. */
    method ProjectMemberships() returns (memberships: seq<ProjectMembership>, err: Option<Error>)
      modifies conn
      ensures old(conn.trace) <= conn.trace
      ensures var e := conn.trace[|old(conn.trace)|..];
        && CreateThenSend(e, "GET", ProjectPath(id, "/memberships"), None, None, Some(MembershipList([])))
        && err == Failure(e)
        && (if err.Some? then memberships == [] else e[1].filled == Some(MembershipList(memberships)))
    {
      var request := CreateRequest("GET", "/memberships", None);
      if request.Err? {
        return [], Some(request.error);
      }
      var filled, _, doErr := conn.Do(request.value, Some(MembershipList([])));
      if doErr.Some? {
        return [], doErr;
      }
      return filled.value.memberships, None;
    }
  }

  /**
   * What a caller can conclude from the contracts alone: on project 99, DeliverStory(42) makes
   * one request on /projects/99/stories/42 and, once it was created, sends it exactly once with
   * the delivered-state body; a delivery-with-comment whose delivery fails sends nothing more.
   */
  /**
   * End-to-end usage: a client for project 99 on a fresh connection delivers story 42, then
   * delivers it again with a comment; the result is the connection's whole trace.
   */
  method DeliveryScenario(encode: JsonEncoder) returns (trace: seq<Event>)
    ensures |trace| >= 2
    ensures trace[0].Create? && trace[0].verb == "PUT" && trace[0].path == "/projects/99/stories/42"
    ensures trace[0].created.Ok? ==> trace[1].Send? && trace[1].request.body == Some(DeliveredBytes)
    ensures trace[0].created.Err? ==> trace[1].Create? && trace[1].path == "/projects/99/stories/42"
  {
    var conn := new Connection();
    var client := new ProjectClient(99, conn, encode);
    var err := client.DeliverStory(42);
    assert Format(42) == "42" && Format(99) == "99" by {
      assert Digits(4) == "4" && Digits(9) == "9";
    }
    assert conn.trace[0].path == "/projects/99/stories/42";
    if conn.trace[0].created.Ok? {
      assert |conn.trace| == 2 && conn.trace[1].request.body == Some(DeliveredBytes);
    } else {
      assert |conn.trace| == 1 && err.Some?;
    }

    ghost var before := |conn.trace|;
    err := client.DeliverStoryWithComment(42, "shipped");
    ghost var e := conn.trace[before..];
    if Failure(e[..RoundTripLength(e)]).Some? {
      assert err.Some? && |e| <= 2;
    }
    trace := conn.trace;
  }
}
