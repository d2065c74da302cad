/** Types shared by every module: optional values, and the typed errors of
    emctl/errors.py and command_center/errors.py. */
module Prelude {

  datatype Option<+T> = None | Some(value: T)
  {
    function Or(default: T): T {
      match this
      case None => default
      case Some(v) => v
    }
  }

  datatype Error =
    | NotFound(entity: string, id: int)  // a row that does not exist
    | Validation(reason: string)         // bad flags, or a step the route refuses
    | Conflict                           // unique or foreign-key violation
    | Database                           // any other database error
    | Unavailable                        // the outward merge call did not give a verdict

  datatype Result<+T> = Ok(value: T) | Err(error: Error)

  /** One transaction: its now(), the ids that its foreign keys can find, and the command. */
  datatype Transaction<+Op> = Transaction(now: int, known: set<int>, op: Op)

  // now() never goes back from one transaction to the next.
  ghost predicate Clocked<Op>(clock: int, ops: seq<Transaction<Op>>)
    decreases |ops|
  {
    ops == [] || (clock <= ops[0].now && Clocked(ops[0].now, ops[1..]))
  }

  // Optional columns: an omitted flag never overwrites the stored value.
  function Overlay<T>(flag: Option<T>, stored: Option<T>): (r: Option<T>)
  {
    if flag.Some? then flag else stored
  }
}
