/** The shared priority counter of the top-level script. The manager value
    and its lock only serialise the updates, which the model makes in turn. */
module PriorityCounter {

  class Counter {
    var val: int

    constructor(initval: int)
      ensures val == initval
    {
      val := initval;
    }

    /** Pre-increment: adds `v` and returns the new value. */
    method AddPre(v: int) returns (r: int)
      modifies this
      ensures val == old(val) + v
      ensures r == val
    {
      val := val + v;
      r := val;
    }

    /** Post-increment: returns the old value, then adds `v`. */
    method AddPost(v: int) returns (r: int)
      modifies this
      ensures val == old(val) + v
      ensures r == old(val)
    {
      r := val;
      val := val + v;
    }

    /** `increment` is `add_pre`. */
    method Increment(v: int) returns (r: int)
      modifies this
      ensures val == old(val) + v
      ensures r == val
    {
      r := AddPre(v);
    }

    /** The current value; nothing changes. */
    method Value() returns (r: int)
      ensures r == val
    {
      r := val;
    }
  }
}
