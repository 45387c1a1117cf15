/** Data shapes of the world state (src/types.ts) and of the session record the client
    receives from the identity endpoint. Nothing about their values is assumed: in particular
    a clock's progress is not assumed to stay within its segment count. */
module Types {
  import opened Wrappers

  datatype Arc = Arc(arcId: string, title: string, status: string)

  /** `progress` and `segments` are JavaScript numbers; fractional values are not modelled. */
  datatype Clock = Clock(
    clockId: string,
    title: string,
    progress: int,
    segments: int,
    status: string,
    nightly: bool)

  datatype Pressure = Pressure(source: string, severity: int, description: string, createdAt: string)

  /** `mapUrl` is optional and nullable; both absence and null are `None`. */
  datatype WorldState = WorldState(
    arcs: seq<Arc>,
    clocks: seq<Clock>,
    pressure: seq<Pressure>,
    heat: int,
    mapUrl: Option<string>)

  /** The session record. Its declaration is not among the shown types; the fields are the
      ones the dashboard reads (role, engine id, user id). */
  datatype Session = Session(userId: string, role: string, engineId: string)
}
