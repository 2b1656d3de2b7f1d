/**
 * The resource records the operations send and receive. Their types are declared outside the
 * modelled file; each keeps only the fields that file reads or sets. The opaque JSON
 * encoding sees only these kept fields; the others are not modelled.
 */
module Entities {

  datatype Story = Story(id: int)

  datatype Task = Task(id: int)

  datatype Comment = Comment(id: int, text: string)

  datatype Blocker = Blocker(id: int)

  datatype Activity = Activity(kind: string)

  datatype ProjectMembership = ProjectMembership(id: int)

  /** An iteration, without its float, time and raw-JSON fields. */
  datatype Iteration = Iteration(
    number: int,
    projectId: int,
    length: int,
    stories: seq<Story>,
    points: int,
    acceptedPoints: int,
    kind: string)

  /** The zero values Go gives a declared but unassigned record. */
  const ZeroStory := Story(0)
  const ZeroTask := Task(0)
  const ZeroComment := Comment(0, "")
  const ZeroBlocker := Blocker(0)
}
