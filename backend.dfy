/** One upstream node (the `Server` class of src/index.ts). */
module Backend {
  import opened Results

  /** Lifecycle of a backend: pending until its first successful probe. */
  datatype State = Pending | Active | Down

  class Server {
    const name: string
    const url: string
    var state: State
    /** Last block height seen; `None` until a probe returned a truthy result. */
    var height: Option<nat>

    constructor (name: string, url: string)
      ensures this.name == name && this.url == url
      ensures state == Pending && height == None
    {
      this.name := name;
      this.url := url;
      state := Pending;
      height := None;
    }

    /**
     * `getBlockHeight`: asks the node for `eth_blockNumber`. A truthy result
     * (already read as a number) becomes the height and makes the server
     * active; a falsy result changes nothing; a failed call throws before
     * anything is changed, reported here as `threw`.
     */
    method GetBlockHeight(reply: Reply<nat>) returns (threw: bool, h: Option<nat>)
      modifies this
      ensures threw <==> reply.Fail?
      ensures reply.Ok? ==> height == Some(reply.value) && state == Active
      ensures !reply.Ok? ==> height == old(height) && state == old(state)
      ensures !threw ==> h == height
    {
      match reply {
        case Fail(_) =>
          threw := true;
        case Empty =>
          threw := false;
        case Ok(n) =>
          threw := false;
          height := Some(n);
          state := Active;
      }
      h := height;
    }
  }

  /**
   * The state a probe with outcome `reply` leaves behind, failure included:
   * an answer activates, a throw marks down, an empty answer leaves `st`.
   */
  function ProbedState(st: State, reply: Reply<nat>): (r: State)
    ensures r == Active <==> reply.Ok? || (reply.Empty? && st == Active)
    ensures r == Down <==> reply.Fail? || (reply.Empty? && st == Down)
  {
    match reply
    case Ok(_) => Active
    case Empty => st
    case Fail(_) => Down
  }

  /**
   * The height a probe with outcome `reply` leaves behind: only an answer
   * changes it, and a known height is never forgotten.
   */
  function ProbedHeight(h: Option<nat>, reply: Reply<nat>): (r: Option<nat>)
    ensures reply.Ok? ==> r == Some(reply.value)
    ensures !reply.Ok? ==> r == h
    ensures r.Some? <==> reply.Ok? || h.Some?
  {
    match reply
    case Ok(n) => Some(n)
    case _ => h
  }
}
