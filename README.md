# go-tracker project client: request-building layer

This project models the request-building core of `ProjectClient`, the project-scoped client of
a Pivotal-Tracker-style REST API, and proves what each part guarantees:

- **Query building**: `IterationsQuery.Query()` turns a filter (scope, label, limit, offset) into
  URL parameters. An empty string or a zero integer leaves its key out. A given field sets
  exactly one value: the string as it is, or the integer in base 10.
- **Project scoping**: `createRequest` prefixes every relative path with `/projects/<id>`. The
  method and the parameters pass through unchanged.
- **Body attachment**: `addJSONBodyReader` and `addJSONBody` change a request in place. They add
  one `Content-Type: application/json` header value and install the body.
- **Operations**: every resource operation (list iterations, stories, activity, tasks and
  comments; deliver, create, update and delete stories; create tasks, comments and blockers;
  list memberships) follows one pattern. It creates the request, attaches a body if it has
  one, calls `Do` once, and shapes the result.

The transport collaborator `connection` is modelled as the class `Connections.Connection`. Its
`CreateRequest` and `Do` may each succeed or fail, and each call is appended to a trace of
events with its arguments and outcome. Each operation of `Client.ProjectClient` states exactly
which events it adds (`Client.CreateThenSend`) and which error and values it returns. The
error is `Client.Failure`: the creation error if creation failed, otherwise `Do`'s error. A
request is a class (`Requests.Request`) because the client changes its header and body in
place. Trace events hold snapshots of it (`Requests.RequestValue`).

Files: `common.dfy` (Option, Result, Error, bytes), `decimal.dfy` (the `%d` rendering and a
parser for it), `paths.dfy` (the story and project-scoped paths, and a splitter that reads them back), `queries.dfy`
(`IterationsQuery`), `requests.dfy` (requests and body attachment), `entities.dfy` (resource
records), `connection.dfy` (the abstract connection), `project_client.dfy` (the operations).
`Client.DeliveryScenario` is an end-to-end usage check. On a fresh connection, a client for
project 99 delivers story 42 and then delivers it with a comment. Its contract gives the concrete
trace this produces.

## Model

| member | source | states |
|---|---|---|
| Decimal.Format | project_client.go:68 | `%d` output is non-empty. It starts with `-` exactly when the number is negative, and every other character is a decimal digit. There is no leading zero: a rendering starting with `0` is the number 0, and a negative one has a non-zero first digit. |
| Decimal.FormatRoundTrip | project_client.go:67-73 | Parsing the `%d` rendering of any integer gives back that integer, so the rendering is base 10 with the sign. |
| Decimal.FormatInjective | project_client.go:169 | Distinct integers (story or project ids) render as distinct strings. |
| Decimal.FormatExamples | project_client.go:68 | 0, 7, 42, -25 and 100 render as "0", "7", "42", "-25" and "100". |
| Paths.ProjectPath | project_client.go:292 | The scoped path starts with `/projects/`, ends with the relative path, and has at least one character (the id) between them. |
| Paths.ProjectPathSplits | project_client.go:291-294 | `SplitPath` reads the scoped path `/projects/<id><path>` back into the project id and the relative path, for every relative path that is empty or starts with `/`. |
| Paths.ProjectPathInjective | project_client.go:292 | Two scoped paths are equal only when the project id and the relative path are both equal. |
| Paths.StoryPath | project_client.go:110 | A story path (built the same way at lines 122, 134, 151, 169, 198, 215, 226, 243 and 260) starts with `/stories/`, ends with its suffix (`/activity`, `/tasks`, `/comments`, `/blockers` or nothing), and has at least one character (the id) between them. |
| Paths.StoryPathSplits | project_client.go:169 | `SplitPath` reads `/stories/<id><suffix>` back into the story id and the suffix, for every suffix that is empty or starts with `/`. |
| Paths.StoryPathInjective | project_client.go:151 | Two story paths are equal only when the story id and the suffix are both equal, so each operation addresses the story it was given. |
| Queries.IterationsQuery.Query | project_client.go:56-76 | The map built step by step with `Set` equals the declarative parameter map `IterationsParams`: one single-valued key per given field. |
| Queries.IterationsParamsKeys | project_client.go:56-76 | `scope`, `label`, `limit` and `offset` are each present exactly when their field is non-empty or non-zero. No other key ever appears. |
| Queries.IterationsParamsValues | project_client.go:59-73 | Every key holds exactly one value. Scope and label appear verbatim; limit and offset appear as their `%d` rendering. |
| Queries.ZeroQueryHasNoParams | project_client.go:56-76 | The zero query yields the empty map. |
| Queries.LimitOffsetExample | project_client.go:67-73 | Limit 10 and offset 20 with no other field yield exactly `limit=["10"]` and `offset=["20"]`. |
| Queries.IterationsQueryRoundTrip | project_client.go:56-76 | Reading the parameters back with `Get` and a decimal parse gives the original query, so no field is lost or altered. |
| Requests.AddHeader | project_client.go:297 | `Header.Add` appends one value under the key. Every other header keeps its values. |
| Requests.WithJSONBody | project_client.go:296-299 | Attaching a body appends one `application/json` value under `Content-Type` and sets the body. Method, path, parameters and all other headers are unchanged. |
| Requests.AsBytes | project_client.go:301-303 | An ASCII string body becomes its UTF-8 bytes: one byte per character, equal to the character's code, in order. |
| Requests.AsBytesRoundTrip | project_client.go:301-303 | Decoding those bytes as text gives back the string, so no character is lost or altered. |
| Connections.Connection.CreateRequest | project_client.go:293 | The collaborator either fails or returns a fresh request with the given method, path and parameters. Either way it appends one `Create` event recording the outcome. |
| Connections.Connection.Do | project_client.go:86 | The collaborator appends one `Send` event with the request as sent, the destination, the decoded value, the pagination and the error. A decoded value exists exactly when a destination was given, and it has the destination's type. |
| Client.ProjectClient.CreateRequest | project_client.go:291-294 | Exactly one `CreateRequest` call, on `/projects/<id>` + path, with method and parameters unchanged. |
| Client.ProjectClient.AddJSONBodyReader | project_client.go:296-299 | The request's new value is `WithJSONBody` of its old value. |
| Client.ProjectClient.AddJSONBody | project_client.go:301-303 | Same as AddJSONBodyReader, with the string's bytes as the body. |
| Client.ProjectClient.Iterations | project_client.go:79-92 | GET `/iterations` with the query's parameters and no body. On either error it returns no iterations and zero pagination. Otherwise it returns Do's decoded list and Do's pagination. |
| Client.ProjectClient.Stories | project_client.go:94-107 | GET `/stories` with the given parameters and no body. On either error it returns nothing and zero pagination. Otherwise it returns the decoded list and the pagination. |
| Client.ProjectClient.StoryActivity | project_client.go:109-119 | GET `/stories/<sid>/activity` with no body, returning the error of whichever step failed. After a Do error it still returns whatever Do decoded. |
| Client.ProjectClient.StoryTasks | project_client.go:121-131 | GET `/stories/<sid>/tasks` with no body. The error and decoded result are as in StoryActivity. |
| Client.ProjectClient.StoryComments | project_client.go:133-143 | GET `/stories/<sid>/comments` with no body. The error and decoded result are as in StoryActivity. |
| Client.ProjectClient.PostStoryComment | project_client.go:151-165 | The comment step of DeliverStoryWithComment: POST `/stories/<sid>/comments` without parameters, with the JSON of a comment holding only the text, and no destination. It returns the failing step's error. |
| Client.Sequenced | project_client.go:145-166 | When a second operation runs only if the first reported no error, the combined trace splits at the end of the first round trip into the two operations' events, and the error is the failing one's. |
| Client.ProjectClient.DeliverStoryWithComment | project_client.go:145-166 | First the delivery's events. If delivery failed, nothing follows and its error is returned. Otherwise a POST to `/stories/<sid>/comments` follows, with the JSON of a comment holding only the text, and its error is returned. Nothing is rolled back. |
| Client.ProjectClient.DeliverStory | project_client.go:168-179 | PUT `/stories/<sid>` without parameters, then a single Do with no destination on the request carrying body `{"current_state":"delivered"}`. It returns the failing step's error. |
| Client.DeliveryRequest | project_client.go:168-179 | A delivery that got past creation sends exactly one request: a PUT on the story path, without parameters. Its body is exactly the delivered-state bytes, and it carries a `Content-Type: application/json` value. |
| Client.DeliveryScenario | project_client.go:168-179 | Delivering story 42 in project 99 first creates a PUT on exactly `/projects/99/stories/42`. If that succeeds, the next event sends the delivered-state body. If it fails, the next event is the next operation's creation on the same path. |
| Client.ProjectClient.CreateStory | project_client.go:181-195 | POST `/stories` with the story's JSON into a zero story. It returns the failing step's error and Do's decoded story, or the zero story if creation failed. |
| Client.ProjectClient.UpdateStory | project_client.go:197-212 | PUT `/stories/<story.id>` with the story's JSON. As written, it reports only a creation error: Do's error is dropped. |
| Client.UpdateStoryHidesDoFailure | project_client.go:209-211 | A run where the update request is created, Do fails, and UpdateStory's reported error is still none. |
| Client.ProjectClient.UpdateStoryReportingFailure | project_client.go:197-212 | The corrected update: the same events, returning the error of whichever step failed. |
| Client.ProjectClient.DeleteStory | project_client.go:214-223 | DELETE `/stories/<sid>` with no body and no destination. It returns the failing step's error. |
| Client.ProjectClient.CreateTask | project_client.go:225-240 | POST `/stories/<sid>/tasks` with the task's JSON. It returns the failing step's error and Do's decoded task, or the zero task. |
| Client.ProjectClient.CreateComment | project_client.go:242-257 | POST `/stories/<sid>/comments` with the comment's JSON. It returns the failing step's error and Do's decoded comment, or the zero comment. |
| Client.ProjectClient.CreateBlocker | project_client.go:259-274 | POST `/stories/<sid>/blockers` with the blocker's JSON. It returns the failing step's error and Do's decoded blocker, or the zero blocker. |
| Client.ProjectClient.ProjectMemberships | project_client.go:276-289 | GET `/memberships` with nil parameters and no body. On either error it returns an empty list. Otherwise it returns the decoded list. |

## Left out

- The real transport is not modelled: URL and request construction inside `CreateRequest`, HTTP, status handling, and parsing response headers into `Pagination`. The connection may succeed or fail at every call, and a created request's headers and body are whatever it chose.
- `Pagination` is declared outside this file. It is modelled with total, limit, offset and returned counts that are only passed along.
- JSON encoding and decoding (`encoding/json`) are a library. Encoding is an opaque function per record type, held by the client as `encode`. Decoding is whatever value of the destination's type `Do` produced. Encoding errors, which the source ignores, are not modelled.
- Decode errors, transport errors and upstream application errors are not told apart. Each is an opaque `Error` that is passed along.
- `StoriesQuery`, `ActivityQuery`, `TaskQuery` and `CommentsQuery` and their `Query()` builders are declared outside this file. Those operations take the parameter map their builder produced.
- The records `Story`, `Task`, `Comment`, `Blocker`, `Activity` and `ProjectMembership` are declared outside this file. They keep only the fields the operations read or set (an id; a comment's text). `Iteration` omits its `float32`, `time.Time` and raw-JSON fields.
- Go's `int` is 64 bits wide. No arithmetic is done on it here, only rendering, so the model uses unbounded integers.
- A nil slice and an empty slice are both the empty sequence.
- `io.Reader` and `NopCloser` stream semantics are not modelled: a body is a byte sequence.
- `http.Header.Add` canonicalises the key. `Content-Type` is already canonical, so this is not modelled.
- Concurrent use of one client is not modelled. Every operation is a sequence of calls on the one connection.
- Every other operation returns `Do`'s error (project_client.go:91, 106, 118, 130, 142, 165, 178, 194, 222, 239, 256, 273, 285); `UpdateStory` does not (project_client.go:211, see Findings). The activity, task and comment listings and the create operations return whatever `Do` decoded even when `Do` failed. `ProjectMemberships` returns an empty list, not a nil one, on error (project_client.go:279, 285). The model follows the code in each case.
- Only ASCII string bodies are modelled (`Requests.AsBytes`). Go would encode a character of 128 or more as several UTF-8 bytes. The one string body the client sends, `{"current_state":"delivered"}`, is ASCII.

## Findings

| source | as written | input that shows it | evidently intended | confidence | as-written member | corrected member |
|---|---|---|---|---|---|---|
| project_client.go:209-211 | `Do`'s error is assigned to `err`, then `nil` is returned | an update whose request is created but whose `Do` fails (for example a 500 response) | `return updatedStory, err`, as in every other operation | high; not executed | Client.UpdateStoryHidesDoFailure | Client.ProjectClient.UpdateStoryReportingFailure |
