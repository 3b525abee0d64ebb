/** The reference-counted gate of one lease: calls begin and end a use, and a closer shuts the gate
    and waits on `done`. `done` stands for the channel being closed. */
module AccountUsage {
  import opened Wrappers

  datatype Gate = Gate(active: nat, closing: bool, done: bool)

  const OPEN := Gate(0, false, false)

  /** The channel is closed exactly when the gate is shut and every use has ended. */
  ghost predicate Consistent(gate: Gate) {
    gate.done <==> gate.closing && gate.active == 0
  }

  /** A refused use (`None`) is the "account logout is in progress" error. */
  function Begin(gate: Gate): Option<Gate> {
    if gate.closing then None else Some(gate.(active := gate.active + 1))
  }

  function End(gate: Gate): Gate {
    var active := if gate.active > 0 then gate.active - 1 else 0;
    gate.(active := active, done := gate.done || (gate.closing && active == 0))
  }

  function Shut(gate: Gate): Gate {
    gate.(closing := true, done := gate.done || gate.active == 0)
  }

  // ---------------------------------------------------------------------------------------------
  // Histories of a gate.
  // ---------------------------------------------------------------------------------------------

  datatype Use = Begins | Ends | Shuts

  function Apply(gate: Gate, use: Use): Gate {
    match use
    case Begins => (match Begin(gate) case Some(next) => next case None => gate)
    case Ends => End(gate)
    case Shuts => Shut(gate)
  }

  function After(uses: seq<Use>): Gate {
    if uses == [] then OPEN else Apply(After(uses[..|uses| - 1]), uses[|uses| - 1])
  }

  /** How many uses began before the first shut. */
  function Admitted(uses: seq<Use>): nat {
    if uses == [] then 0
    else
      var before := uses[..|uses| - 1];
      Admitted(before) + if uses[|uses| - 1] == Begins && Shuts !in before then 1 else 0
  }

  function Ended(uses: seq<Use>): nat {
    if uses == [] then 0
    else Ended(uses[..|uses| - 1]) + if uses[|uses| - 1] == Ends then 1 else 0
  }

  /** Every end belongs to an admitted use. */
  ghost predicate Balanced(uses: seq<Use>) {
    forall n :: 0 <= n <= |uses| ==> Ended(uses[..n]) <= Admitted(uses[..n])
  }

  /** For every balanced history the counter is the number of uses admitted and not yet ended, the
      gate is closing exactly when it was shut, and `done` is reported exactly when it was shut and
      nothing is outstanding. */
  lemma {:induction false} GateCountsOutstandingUses(uses: seq<Use>)
    requires Balanced(uses)
    ensures After(uses).active == Admitted(uses) - Ended(uses)
    ensures After(uses).closing <==> Shuts in uses
    ensures Consistent(After(uses))
    decreases |uses|
  {
    if uses != [] {
      var last := |uses| - 1;
      var before := uses[..last];
      assert uses == before + [uses[last]];
      assert forall n :: 0 <= n <= last ==> before[..n] == uses[..n];
      assert uses[..|uses|] == uses;
      GateCountsOutstandingUses(before);
    }
  }

  lemma {:induction false} DrainedStaysDrained(gate: Gate, uses: seq<Use>)
    requires Consistent(gate) && gate.done
    ensures AfterFrom(gate, uses) == gate
    decreases |uses|
  {
    if uses != [] {
      DrainedStaysDrained(gate, uses[..|uses| - 1]);
    }
  }

  function AfterFrom(gate: Gate, uses: seq<Use>): Gate {
    if uses == [] then gate else Apply(AfterFrom(gate, uses[..|uses| - 1]), uses[|uses| - 1])
  }

  // ---------------------------------------------------------------------------------------------
  // The object itself.
  // ---------------------------------------------------------------------------------------------

  class Usage {
    var active: int
    var closing: bool
    var done: bool

    ghost predicate Valid()
      reads this
    {
      active >= 0 && Consistent(Value())
    }

    ghost function Value(): Gate
      reads this
      requires active >= 0
    {
      Gate(active, closing, done)
    }

    constructor ()
      ensures Valid() && Value() == OPEN
    {
      active, closing, done := 0, false, false;
    }

    method BeginUse() returns (admitted: bool)
      requires Valid()
      modifies this
      ensures Valid()
      ensures admitted == Begin(old(Value())).Some?
      ensures Value() == if admitted then Begin(old(Value())).value else old(Value())
    {
      if closing {
        return false;
      }
      active := active + 1;
      return true;
    }

    method EndUse()
      requires Valid()
      modifies this
      ensures Valid() && Value() == End(old(Value()))
    {
      if active > 0 {
        active := active - 1;
      }
      if closing && active == 0 {
        done := true;
      }
    }

    method CloseAfterActive()
      requires Valid()
      modifies this
      ensures Valid() && Value() == Shut(old(Value()))
    {
      closing := true;
      if active == 0 {
        done := true;
      }
    }
  }

  /** The once-only release bound to one borrow: however often it is called, one use ends. */
  class Release {
    const usage: Usage
    var released: bool

    constructor (usage: Usage)
      ensures this.usage == usage && !released
    {
      this.usage := usage;
      released := false;
    }

    method Call()
      requires usage.Valid()
      modifies this, usage
      ensures usage.Valid() && released
      ensures usage.Value() == if old(released) then old(usage.Value()) else End(old(usage.Value()))
    {
      if !released {
        released := true;
        usage.EndUse();
      }
    }
  }
}
