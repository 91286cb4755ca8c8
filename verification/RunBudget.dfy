/** The quota shared by a parent run and its delegated child runs. */
module RunBudget {
  import opened Base

  datatype Pool = Pool(
    maxIterations: nat, maxToolCalls: nat, maxChildren: nat,
    iterationsUsed: nat, toolCallsUsed: nat, childCalls: set<string>, activeChildren: nat)
  {
    ghost predicate Valid() {
      && iterationsUsed <= maxIterations
      && toolCallsUsed <= maxToolCalls
      && |childCalls| <= maxChildren
      && activeChildren <= maxChildren
    }

    predicate SameLimits(p: Pool) {
      maxIterations == p.maxIterations && maxToolCalls == p.maxToolCalls && maxChildren == p.maxChildren
    }
  }

  // ----- One charge; `open` says whether time is left before the deadline -----

  predicate IterationOpen(p: Pool, open: bool) {
    open && p.iterationsUsed < p.maxIterations
  }

  function TakeIteration(p: Pool, open: bool): Pool {
    if IterationOpen(p, open) then p.(iterationsUsed := p.iterationsUsed + 1) else p
  }

  function Slots(p: Pool, open: bool, requested: nat): nat {
    if open && p.toolCallsUsed <= p.maxToolCalls then Min(requested, p.maxToolCalls - p.toolCallsUsed) else 0
  }

  function TakeToolSlots(p: Pool, open: bool, requested: nat): Pool {
    p.(toolCallsUsed := p.toolCallsUsed + Slots(p, open, requested))
  }

  predicate ChildOpen(p: Pool, open: bool, call: string, ceiling: Option<nat>) {
    && open && call !in p.childCalls
    && |p.childCalls| < (if ceiling.None? then p.maxChildren else Min(p.maxChildren, ceiling.value))
  }

  predicate ChildSlotOpen(p: Pool, open: bool, ceiling: nat) {
    open && p.activeChildren < Min(ceiling, p.maxChildren)
  }

  datatype Charge =
    | Iteration(open: bool)
    | Tools(open: bool, requested: nat)
    | Reserve(open: bool, call: string, ceiling: Option<nat>)
    | ChildStart(open: bool, parallel: nat)
    | ChildEnd

  /** What the caller is told: how many units it received. */
  function Granted(p: Pool, c: Charge): nat {
    match c
    case Iteration(open) => if IterationOpen(p, open) then 1 else 0
    case Tools(open, n) => Slots(p, open, n)
    case Reserve(open, call, ceiling) => if ChildOpen(p, open, call, ceiling) then 1 else 0
    case ChildStart(open, ceiling) => if ChildSlotOpen(p, open, ceiling) then 1 else 0
    case ChildEnd => if p.activeChildren > 0 then 1 else 0
  }

  function Apply(p: Pool, c: Charge): Pool {
    match c
    case Iteration(open) => TakeIteration(p, open)
    case Tools(open, n) => TakeToolSlots(p, open, n)
    case Reserve(open, call, ceiling) =>
      if ChildOpen(p, open, call, ceiling) then p.(childCalls := p.childCalls + {call}) else p
    case ChildStart(open, ceiling) =>
      if ChildSlotOpen(p, open, ceiling) then p.(activeChildren := p.activeChildren + 1) else p
    case ChildEnd => if p.activeChildren > 0 then p.(activeChildren := p.activeChildren - 1) else p
  }

  function Run(p: Pool, charges: seq<Charge>): Pool
    decreases |charges|
  {
    if charges == [] then p else Run(Apply(p, charges[0]), charges[1..])
  }

  /** Units handed out along a run to the charges selected by `kind`. */
  function Handed(p: Pool, charges: seq<Charge>, kind: Charge -> bool): nat
    decreases |charges|
  {
    if charges == [] then 0
    else (if kind(charges[0]) then Granted(p, charges[0]) else 0)
         + Handed(Apply(p, charges[0]), charges[1..], kind)
  }

  lemma {:induction false} ApplyKeeps(p: Pool, c: Charge)
    requires p.Valid()
    ensures Apply(p, c).Valid() && Apply(p, c).SameLimits(p) && p.childCalls <= Apply(p, c).childCalls
  {
  }

  predicate IsIteration(c: Charge) { c.Iteration? }

  predicate IsTools(c: Charge) { c.Tools? }

  predicate IsReserve(c: Charge) { c.Reserve? }

  predicate IsChildStart(c: Charge) { c.ChildStart? }

  predicate IsChildEnd(c: Charge) { c.ChildEnd? }

  lemma {:induction false} WorkConserved(p: Pool, charges: seq<Charge>)
    requires p.Valid()
    ensures var q := Run(p, charges);
            && q.Valid() && q.SameLimits(p)
            && q.iterationsUsed == p.iterationsUsed + Handed(p, charges, IsIteration)
            && q.toolCallsUsed == p.toolCallsUsed + Handed(p, charges, IsTools)
    decreases |charges|
  {
    if charges != [] {
      ApplyKeeps(p, charges[0]);
      WorkConserved(Apply(p, charges[0]), charges[1..]);
    }
  }

  lemma {:induction false} ChildrenConserved(p: Pool, charges: seq<Charge>)
    ensures var q := Run(p, charges);
            && |q.childCalls| == |p.childCalls| + Handed(p, charges, IsReserve)
            && q.activeChildren + Handed(p, charges, IsChildEnd) == p.activeChildren + Handed(p, charges, IsChildStart)
    decreases |charges|
  {
    if charges != [] {
      ChildrenConserved(Apply(p, charges[0]), charges[1..]);
    }
  }

  /** Whatever the callers do, the pool has used exactly what it handed out and never more than its
      limits; active children are those started and not ended. */
  lemma {:induction false} UsageIsWhatWasHandedOut(p: Pool, charges: seq<Charge>)
    requires p.Valid()
    ensures var q := Run(p, charges);
            && q.Valid() && q.SameLimits(p)
            && q.iterationsUsed == p.iterationsUsed + Handed(p, charges, IsIteration)
            && q.toolCallsUsed == p.toolCallsUsed + Handed(p, charges, IsTools)
            && |q.childCalls| == |p.childCalls| + Handed(p, charges, IsReserve)
            && q.activeChildren + Handed(p, charges, IsChildEnd) == p.activeChildren + Handed(p, charges, IsChildStart)
  {
    WorkConserved(p, charges);
    ChildrenConserved(p, charges);
  }

  /** How many of the reservations for one call id succeeded. */
  function Reservations(p: Pool, charges: seq<Charge>, call: string): nat
    decreases |charges|
  {
    if charges == [] then 0
    else (if charges[0].Reserve? && charges[0].call == call then Granted(p, charges[0]) else 0)
         + Reservations(Apply(p, charges[0]), charges[1..], call)
  }

  /** Every call id receives at most one reservation: exactly one if it becomes reserved. */
  lemma {:induction false} ReservedAtMostOnce(p: Pool, charges: seq<Charge>, call: string)
    ensures Reservations(p, charges, call) ==
            if call in Run(p, charges).childCalls && call !in p.childCalls then 1 else 0
    ensures p.childCalls <= Run(p, charges).childCalls
    decreases |charges|
  {
    if charges != [] {
      ReservedAtMostOnce(Apply(p, charges[0]), charges[1..], call);
    }
  }

  datatype BudgetError = NegativeRequest | EmptyCallId | NegativeCeiling | NoActiveChild

  class AggregateRunBudget {
    const maxIterations: nat
    const maxToolCalls: nat
    const maxChildren: nat
    var iterationsUsed: nat
    var toolCallsUsed: nat
    var childCalls: set<string>
    var activeChildren: nat

    function Model(): Pool
      reads this
    {
      Pool(maxIterations, maxToolCalls, maxChildren, iterationsUsed, toolCallsUsed, childCalls, activeChildren)
    }

    constructor (maxIterations: nat, maxToolCalls: nat, maxChildren: nat)
      ensures Model() == Pool(maxIterations, maxToolCalls, maxChildren, 0, 0, {}, 0) && Model().Valid()
    {
      this.maxIterations, this.maxToolCalls, this.maxChildren := maxIterations, maxToolCalls, maxChildren;
      iterationsUsed, toolCallsUsed, childCalls, activeChildren := 0, 0, {}, 0;
    }

    method ChargeIteration(open: bool) returns (ok: bool)
      requires Model().Valid()
      modifies this
      ensures Model() == Apply(old(Model()), Iteration(open)) && Model().Valid()
      ensures ok <==> Granted(old(Model()), Iteration(open)) == 1
      ensures ok ==> old(iterationsUsed) < iterationsUsed <= maxIterations
    {
      if !open || iterationsUsed >= maxIterations {
        return false;
      }
      iterationsUsed := iterationsUsed + 1;
      return true;
    }

    method ChargeTools(open: bool, requested: int) returns (r: Result<nat, BudgetError>)
      requires Model().Valid()
      modifies this
      ensures Model().Valid()
      ensures requested < 0 ==> r == Err(NegativeRequest) && Model() == old(Model())
      ensures requested >= 0 ==>
        && r == Ok(Granted(old(Model()), Tools(open, requested)))
        && r.value <= requested && toolCallsUsed == old(toolCallsUsed) + r.value <= maxToolCalls
        && Model() == Apply(old(Model()), Tools(open, requested))
    {
      if requested < 0 {
        return Err(NegativeRequest);
      }
      if !open {
        return Ok(0);
      }
      var available := if toolCallsUsed <= maxToolCalls then maxToolCalls - toolCallsUsed else 0;
      var permitted := if requested < available then requested else available;
      toolCallsUsed := toolCallsUsed + permitted;
      return Ok(permitted);
    }

    method ReserveChild(open: bool, call: string, ceiling: Option<int>) returns (r: Result<bool, BudgetError>)
      requires Model().Valid()
      modifies this
      ensures Model().Valid()
      ensures r.Err? <==> call == "" || (ceiling.Some? && ceiling.value < 0)
      ensures r.Err? ==> Model() == old(Model())
      ensures r.Ok? ==>
        var c := Reserve(open, call, if ceiling.Some? then Some(ceiling.value as nat) else None);
        && r.value == (Granted(old(Model()), c) == 1)
        && (r.value ==> call !in old(childCalls) && call in childCalls)
        && Model() == Apply(old(Model()), c)
    {
      if call == "" {
        return Err(EmptyCallId);
      }
      if ceiling.Some? && ceiling.value < 0 {
        return Err(NegativeCeiling);
      }
      var limit := if ceiling.None? then maxChildren
                   else if maxChildren < ceiling.value then maxChildren else ceiling.value;
      if !open || call in childCalls || |childCalls| >= limit {
        return Ok(false);
      }
      childCalls := childCalls + {call};
      return Ok(true);
    }

    /** One look at the counter: the waiting caller looks again after each release, and gives up
        with `open` false once its deadline has passed. */
    method TakeChildSlot(open: bool, ceiling: int) returns (r: Result<bool, BudgetError>)
      requires Model().Valid()
      modifies this
      ensures Model().Valid()
      ensures ceiling < 0 ==> r == Err(NegativeCeiling) && Model() == old(Model())
      ensures ceiling >= 0 ==>
        && r == Ok(Granted(old(Model()), ChildStart(open, ceiling)) == 1)
        && Model() == Apply(old(Model()), ChildStart(open, ceiling))
    {
      if ceiling < 0 {
        return Err(NegativeCeiling);
      }
      var effective := if ceiling < maxChildren then ceiling else maxChildren;
      if open && effective > 0 && activeChildren < effective {
        activeChildren := activeChildren + 1;
        return Ok(true);
      }
      return Ok(false);
    }

    method ReleaseChildSlot() returns (r: Result<(), BudgetError>)
      requires Model().Valid()
      modifies this
      ensures Model() == Apply(old(Model()), ChildEnd) && Model().Valid()
      ensures r.Ok? <==> Granted(old(Model()), ChildEnd) == 1
    {
      if activeChildren <= 0 {
        return Err(NoActiveChild);
      }
      activeChildren := activeChildren - 1;
      return Ok(());
    }
  }

  // ----- Exactly what a run of charges is handed -----

  /** Iterations and tool slots asked for while time was left. */
  function IterationsAsked(charges: seq<Charge>): nat {
    if charges == [] then 0
    else (if charges[0].Iteration? && charges[0].open then 1 else 0) + IterationsAsked(charges[1..])
  }

  function SlotsAsked(charges: seq<Charge>): nat {
    if charges == [] then 0
    else (if charges[0].Tools? && charges[0].open then charges[0].requested else 0) + SlotsAsked(charges[1..])
  }

  /** However the charges are ordered, what is handed out is what was asked for in time, or all that was
      left if that is less: nothing is refused while there is budget, and nothing is given beyond it. */
  lemma {:induction false} HandsOutAllItCan(p: Pool, charges: seq<Charge>)
    requires p.Valid()
    ensures Handed(p, charges, IsIteration) == Min(IterationsAsked(charges), p.maxIterations - p.iterationsUsed)
    ensures Handed(p, charges, IsTools) == Min(SlotsAsked(charges), p.maxToolCalls - p.toolCallsUsed)
    decreases |charges|
  {
    if charges != [] {
      ApplyKeeps(p, charges[0]);
      HandsOutAllItCan(Apply(p, charges[0]), charges[1..]);
    }
  }

  /** A child call is reserved exactly when time is left, its id is new and both ceilings have room; a
      child starts exactly when time is left and both allow one more; one that ends frees its place. */
  lemma {:induction false} ChildrenExactly(p: Pool, open: bool, call: string, ceiling: Option<nat>, parallel: nat)
    ensures var (c, q) := (Reserve(open, call, ceiling), Apply(p, Reserve(open, call, ceiling)));
            var room := |p.childCalls| < p.maxChildren && (ceiling.Some? ==> |p.childCalls| < ceiling.value);
            && Granted(p, c) == (if open && call !in p.childCalls && room then 1 else 0)
            && q == p.(childCalls := if Granted(p, c) == 1 then p.childCalls + {call} else p.childCalls)
    ensures var (c, q) := (ChildStart(open, parallel), Apply(p, ChildStart(open, parallel)));
            var room := p.activeChildren < parallel && p.activeChildren < p.maxChildren;
            && Granted(p, c) == (if open && room then 1 else 0)
            && q == p.(activeChildren := p.activeChildren + Granted(p, c))
    ensures Granted(p, ChildEnd) <= p.activeChildren && (p.activeChildren > 0 ==> Granted(p, ChildEnd) == 1)
            && Apply(p, ChildEnd) == p.(activeChildren := p.activeChildren - Granted(p, ChildEnd))
  {
  }
}
