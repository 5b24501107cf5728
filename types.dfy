/** The records of lib/types.ts, and the two wrappers the model uses for
    missing values and for the store's not-found error. */
module Types {

  /** A task marker on the chart. `x` is the progress in [0, 1] that the
      drag handler stores; `y` is the hill height stored next to it. */
  datatype Dot = Dot(id: string, name: string, x: real, y: real, color: string)

  /** A project: its markers in insertion order and an inert comment. */
  datatype Project = Project(id: string, name: string, dots: seq<Dot>, comment: string)

  datatype Option<+T> = None | Some(value: T)

  /** `dots.find((d) => d.id === id)`: the first dot with that id. */
  function FindDot(dots: seq<Dot>, id: string): (r: Option<Dot>)
    ensures r.None? <==> forall j :: 0 <= j < |dots| ==> dots[j].id != id
    ensures r.Some? ==> exists i :: 0 <= i < |dots| && dots[i] == r.value && r.value.id == id
                                  && forall j :: 0 <= j < i ==> dots[j].id != id
    decreases |dots|
  {
    if |dots| == 0 then None
    else if dots[0].id == id then Some(dots[0])
    else FindDot(dots[1..], id)
  }

  /** The store's lookups either succeed or fail with `NotFound`. */
  datatype Error = NotFound(id: string)

  datatype Result<+T> = Ok(value: T) | Err(error: Error)
}
