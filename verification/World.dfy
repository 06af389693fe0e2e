/** The world a protocol runs in. */
module World {
  /** Whether the next thing goes well: an obliging world never disappoints, any other may. */
  method GoesWell(obliging: bool) returns (well: bool)
    ensures obliging ==> well
  {
    well := *;
    well := well || obliging;
  }
}
