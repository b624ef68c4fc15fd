/**
 Budget policies, the behaviour chain followed when an allowance is spent, and
 the budget scope that every strategy node pushes for itself.
 */
module Budgets {
  import opened Words

  datatype BudgetPolicy =
    | Unlimited
    | TotalSteps(value: U32)
    | PerLoop(value: U32)
    | PerAttempt(value: U32)
  {
    /** The step allowance of the scope; None when the scope is uncapped. */
    function Allowance(): Option<U32> {
      if Unlimited? then None else Some(value)
    }
  }

  /**
   What a node does when its allowance is spent. `onExhausted` is absent only in
   a malformed chain, which resolves to Fail. A missing kind means Escalate.
   */
  datatype Behavior =
    | Continue(maxContinues: U32, onExhausted: Option<Behavior>)
    | Escalate
    | Fail

  datatype Resolution = GrantContinue | ResolveFail | ResolveEscalate

  datatype EscalationMode =
    | SurfaceToHuman
    | Autonomous
    | AutoContinue(maxGrants: U32, stepsPerGrant: U32)

  /** The value of a budget scope. */
  datatype Scope = Scope(
    policy: BudgetPolicy,
    behavior: Behavior,
    stepsTaken: U32,
    continuesUsed: U32,
    phase: string,
    autoGrantsUsed: U32)

  /** The signal raised by a refused charge. */
  datatype BudgetExhausted = BudgetExhausted(
    policy: BudgetPolicy,
    behavior: Behavior,
    stepsTaken: U32,
    continuesUsed: U32,
    phase: string)

  function SignalOf(s: Scope): BudgetExhausted {
    BudgetExhausted(s.policy, s.behavior, s.stepsTaken, s.continuesUsed, s.phase)
  }

  // ---------------------------------------------------------------------------
  // What the operations of a scope mean
  // ---------------------------------------------------------------------------

  /** A charge is refused when the saturated debit would exceed the allowance. */
  predicate Fits(s: Scope, turns: U32) {
    s.policy.Allowance().Some? ==> SaturatingAdd(s.stepsTaken, turns) <= s.policy.Allowance().value
  }

  /** The scope after an admitted charge. */
  function Debited(s: Scope, turns: U32): Scope {
    s.(stepsTaken := SaturatingAdd(s.stepsTaken, turns))
  }

  /** The largest MaxContinues anywhere along the chain. */
  function ChainMax(b: Behavior): U32 {
    match b
    case Continue(m, Some(next)) => var rest := ChainMax(next); if m < rest then rest else m
    case Continue(m, None) => m
    case _ => 0
  }

  /** Where the chain ends once every continue is spent. */
  function Terminal(b: Behavior): (r: Resolution)
    ensures r != GrantContinue
  {
    match b
    case Continue(_, Some(next)) => Terminal(next)
    case Escalate => ResolveEscalate
    case _ => ResolveFail
  }

  /** Every level shares one counter, so the chain is worth its largest level. */
  function ContinuesLeft(b: Behavior, used: U32): nat {
    Max(0, ChainMax(b) - used)
  }

  /** The level of the chain that answers when `used` continues are spent. */
  function ActiveLevel(b: Behavior, used: U32): Behavior {
    match b
    case Continue(m, Some(next)) => if m > used then b else ActiveLevel(next, used)
    case _ => b
  }

  /** The state of a scope after its exhaustion was resolved. */
  function Resolved(s: Scope): (r: (Resolution, Scope))
  {
    var level := ActiveLevel(s.behavior, s.continuesUsed);
    if level.Continue? && level.maxContinues > s.continuesUsed then
      (GrantContinue, s.(behavior := level, stepsTaken := 0, continuesUsed := SaturatingAdd(s.continuesUsed, 1)))
    else
      (if level.Escalate? then ResolveEscalate else ResolveFail, s.(behavior := level))
  }

  /** A grant raises a cap to at least `granted`; it never lowers one. */
  function Granted(p: BudgetPolicy, granted: U32): (r: BudgetPolicy)
    ensures p.Unlimited? <==> r.Unlimited?
    ensures !p.Unlimited? ==> r.value == Max(p.value, granted)
    ensures p.PerLoop? <==> r.PerLoop?
  {
    if p.Unlimited? || p.value >= granted then p else p.(value := granted)
  }

  function GrantsLeft(s: Scope, mode: EscalationMode): nat {
    if mode.AutoContinue? then SaturatingSub(mode.maxGrants, s.autoGrantsUsed) else 0
  }

  /** One automatic grant: the cap moves up, the steps are not rewound. */
  function AutoGranted(s: Scope, steps: U32): Scope {
    s.(autoGrantsUsed := SaturatingAdd(s.autoGrantsUsed, 1),
       policy := Granted(s.policy, SaturatingAdd(s.stepsTaken, steps)))
  }

  // ---------------------------------------------------------------------------
  // The chain
  // ---------------------------------------------------------------------------

  /**
   A resolution grants a continue exactly while the largest level of the chain
   exceeds the shared counter, each grant costs exactly one of the continues
   left, and afterwards the chain answers with its last behaviour for good.
   */
  lemma {:induction false} ResolutionFollowsChain(s: Scope)
    ensures var (res, t) := Resolved(s);
      && (res == GrantContinue <==> ContinuesLeft(s.behavior, s.continuesUsed) > 0)
      && (res == GrantContinue ==>
            && t.stepsTaken == 0
            && t.continuesUsed == s.continuesUsed + 1
            && ContinuesLeft(t.behavior, t.continuesUsed) == ContinuesLeft(s.behavior, s.continuesUsed) - 1)
      && (res != GrantContinue ==>
            && res == Terminal(s.behavior)
            && t == s.(behavior := t.behavior)
            && ContinuesLeft(t.behavior, t.continuesUsed) == 0)
      && Terminal(t.behavior) == Terminal(s.behavior)
      && ChainMax(t.behavior) <= ChainMax(s.behavior)
      && t.policy == s.policy && t.phase == s.phase && t.autoGrantsUsed == s.autoGrantsUsed
  {
    ActiveLevelKeepsChain(s.behavior, s.continuesUsed);
  }

  lemma {:induction false} ActiveLevelKeepsChain(b: Behavior, used: U32)
    ensures var level := ActiveLevel(b, used);
      && Terminal(level) == Terminal(b)
      && ContinuesLeft(level, used) == ContinuesLeft(b, used)
      && ChainMax(level) <= ChainMax(b)
      && (level.Continue? && level.maxContinues > used <==> ChainMax(b) > used)
      && (level.Continue? && level.maxContinues <= used ==> level.onExhausted.None?)
  {
    match b
    case Continue(m, Some(next)) =>
      if m <= used {
        ActiveLevelKeepsChain(next, used);
      }
    case _ =>
  }

  // ---------------------------------------------------------------------------
  // Exact capacity
  // ---------------------------------------------------------------------------

  /** Unit charges a scope admits before its terminal resolution, step by step. */
  ghost function UnitCharges(s: Scope, mode: EscalationMode): nat
    requires Finite(s, mode)
    decreases ContinuesLeft(s.behavior, s.continuesUsed), GrantsLeft(s, mode),
              s.policy.value - s.stepsTaken
  {
    if Fits(s, 1) then
      1 + UnitCharges(s.(stepsTaken := s.stepsTaken + 1), mode)
    else
      ResolutionFollowsChain(s);
      var (res, t) := Resolved(s);
      match res
      case GrantContinue => CapacityAfterContinue(s, mode); UnitCharges(t, mode)
      case ResolveFail => 0
      case ResolveEscalate =>
        if GrantsLeft(t, mode) > 0 then
          CapacityAfterGrant(s, mode);
          UnitCharges(AutoGranted(t, mode.stepsPerGrant), mode)
        else 0
  }

  /** Steps that automatic grants can still add; a chain ending in Fail never escalates. */
  function GrantableSteps(s: Scope, mode: EscalationMode): nat {
    if mode.AutoContinue? && Terminal(s.behavior) == ResolveEscalate
    then GrantsLeft(s, mode) * mode.stepsPerGrant
    else 0
  }

  /** Capped, and the cap stays below the word maximum after every grant. */
  ghost predicate Finite(s: Scope, mode: EscalationMode) {
    && !s.policy.Unlimited?
    && s.stepsTaken <= s.policy.value
    && s.policy.value + GrantableSteps(s, mode) < U32_MAX
  }

  /**
   The capacity in closed form: what is left of this round, one whole allowance
   per continue left, and the automatic grants.
   */
  function Capacity(s: Scope, mode: EscalationMode): nat
    requires !s.policy.Unlimited? && s.stepsTaken <= s.policy.value
  {
    (s.policy.value - s.stepsTaken)
    + s.policy.value * ContinuesLeft(s.behavior, s.continuesUsed)
    + GrantableSteps(s, mode)
  }

  /** A granted continue trades one continue for one whole allowance. */
  lemma CapacityAfterContinue(s: Scope, mode: EscalationMode)
    requires Finite(s, mode) && !Fits(s, 1) && Resolved(s).0 == GrantContinue
    ensures Finite(Resolved(s).1, mode)
    ensures Capacity(Resolved(s).1, mode) == Capacity(s, mode)
  {
    ResolutionFollowsChain(s);
    DropOne(s.policy.value, ContinuesLeft(s.behavior, s.continuesUsed));
  }

  /** An automatic grant moves the cap up by what it takes off the grantable steps. */
  lemma CapacityAfterGrant(s: Scope, mode: EscalationMode)
    requires Finite(s, mode) && !Fits(s, 1) && Resolved(s).0 == ResolveEscalate
    requires GrantsLeft(s, mode) > 0
    ensures var g := AutoGranted(Resolved(s).1, mode.stepsPerGrant);
      && Finite(g, mode)
      && Capacity(g, mode) == Capacity(s, mode)
      && ContinuesLeft(g.behavior, g.continuesUsed) == 0 == ContinuesLeft(s.behavior, s.continuesUsed)
      && GrantsLeft(g, mode) == GrantsLeft(s, mode) - 1
  {
    ResolutionFollowsChain(s);
    DropOne(mode.stepsPerGrant, GrantsLeft(s, mode));
  }

  lemma DropOne(x: nat, k: nat)
    requires k > 0
    ensures x * k == x + x * (k - 1)
    ensures k * x == x + (k - 1) * x
    ensures k * x >= x
  {
  }

  /** A scope admits exactly its capacity in unit charges. */
  lemma {:induction false} ExactCapacity(s: Scope, mode: EscalationMode)
    requires Finite(s, mode)
    ensures UnitCharges(s, mode) == Capacity(s, mode)
    decreases ContinuesLeft(s.behavior, s.continuesUsed), GrantsLeft(s, mode),
              s.policy.value - s.stepsTaken
  {
    if Fits(s, 1) {
      ExactCapacity(s.(stepsTaken := s.stepsTaken + 1), mode);
    } else {
      ResolutionFollowsChain(s);
      var (res, t) := Resolved(s);
      if res == GrantContinue {
        CapacityAfterContinue(s, mode);
        ExactCapacity(t, mode);
      } else if res == ResolveEscalate && GrantsLeft(t, mode) > 0 {
        CapacityAfterGrant(s, mode);
        ExactCapacity(AutoGranted(t, mode.stepsPerGrant), mode);
      } else {
        CapacitySpent(s, mode);
      }
    }
  }

  lemma CapacitySpent(s: Scope, mode: EscalationMode)
    requires Finite(s, mode) && !Fits(s, 1) && ContinuesLeft(s.behavior, s.continuesUsed) == 0
    requires Terminal(s.behavior) == ResolveEscalate ==> GrantsLeft(s, mode) == 0
    ensures Capacity(s, mode) == 0
  {
  }

  /** A fresh scope of allowance n, resumed with u continues spent: n*(1+max(0,m-u)) + g*s. */
  lemma ResumedCapacity(s: Scope, mode: EscalationMode)
    requires Finite(s, mode) && s.stepsTaken == 0
    ensures UnitCharges(s, mode) ==
            s.policy.value * (1 + Max(0, ChainMax(s.behavior) - s.continuesUsed)) + GrantableSteps(s, mode)
  {
    ExactCapacity(s, mode);
    OneMore(s.policy.value, ContinuesLeft(s.behavior, s.continuesUsed));
  }

  lemma OneMore(n: int, l: int)
    ensures n + n * l == n * (1 + l)
  {
  }

  /**
   The saturated debit never exceeds an allowance of 2^32 - 1, so exactly the
   capped scopes below it refuse some unit charge.
   */
  lemma RefusesSomeUnitCharge(s: Scope)
    ensures (exists steps: U32 :: !Fits(s.(stepsTaken := steps), 1))
            <==> !s.policy.Unlimited? && s.policy.value < U32_MAX
  {
    if !s.policy.Unlimited? && s.policy.value < U32_MAX {
      assert !Fits(s.(stepsTaken := U32_MAX), 1);
    }
  }

  // ---------------------------------------------------------------------------
  // The scope as an object
  // ---------------------------------------------------------------------------

  class BudgetContext {
    var policy: BudgetPolicy
    var behavior: Behavior
    var stepsTaken: U32
    var continuesUsed: U32
    var phase: string
    var autoGrantsUsed: U32

    ghost function State(): Scope
      reads this
    {
      Scope(policy, behavior, stepsTaken, continuesUsed, phase, autoGrantsUsed)
    }

    /** A fresh scope, or one resumed from a checkpoint with continues already spent. */
    constructor (policy: BudgetPolicy, behavior: Behavior, phase: string, continuesUsed: U32)
      ensures State() == Scope(policy, behavior, 0, continuesUsed, phase, 0)
    {
      this.policy, this.behavior, this.phase := policy, behavior, phase;
      this.stepsTaken, this.continuesUsed, this.autoGrantsUsed := 0, continuesUsed, 0;
    }

    /** Debits `turns`; a refused debit reports the scope and changes nothing. */
    method Charge(turns: U32) returns (refused: Option<BudgetExhausted>)
      modifies this
      ensures refused.None? <==> old(Fits(State(), turns))
      ensures refused.None? ==>
                State() == old(State()).(stepsTaken := Min(old(stepsTaken) + turns, U32_MAX))
      ensures refused.Some? ==> State() == old(State()) && refused.value == old(SignalOf(State()))
    {
      var allowance := policy.Allowance();
      if allowance.Some? && SaturatingAdd(stepsTaken, turns) > allowance.value {
        return Some(BudgetExhausted(policy, behavior, stepsTaken, continuesUsed, phase));
      }
      stepsTaken := SaturatingAdd(stepsTaken, turns);
      return None;
    }

    method ContinuesRemaining() returns (left: U32)
      ensures left == if behavior.Continue? then Max(0, behavior.maxContinues - continuesUsed) else 0
    {
      left := if behavior.Continue? then SaturatingSub(behavior.maxContinues, continuesUsed) else 0;
    }

    /** Rewinds the step counter and spends one continue. */
    method ConsumeContinue()
      modifies this
      ensures State() == old(State()).(stepsTaken := 0, continuesUsed := Min(old(continuesUsed) + 1, U32_MAX))
    {
      continuesUsed := SaturatingAdd(continuesUsed, 1);
      stepsTaken := 0;
    }

    /** Walks the chain, adopting the nested behaviour of every spent level. */
    method ResolveExhausted() returns (res: Resolution)
      modifies this
      ensures (res, State()) == Resolved(old(State()))
      decreases behavior
    {
      match behavior
      case Fail =>
        res := ResolveFail;
      case Escalate =>
        res := ResolveEscalate;
      case Continue(m, next) =>
        var left := ContinuesRemaining();
        if left > 0 {
          ConsumeContinue();
          return GrantContinue;
        }
        if next.None? {
          return ResolveFail;
        }
        behavior := next.value;
        res := ResolveExhausted();
    }

    method GrantAutoContinue(stepsPerGrant: U32)
      modifies this
      ensures State() == AutoGranted(old(State()), stepsPerGrant)
    {
      autoGrantsUsed := SaturatingAdd(autoGrantsUsed, 1);
      policy := Granted(policy, SaturatingAdd(stepsTaken, stepsPerGrant));
    }

    /** One automatic grant, when the mode allows it and grants are left. */
    method TryAutoContinue(mode: EscalationMode) returns (granted: bool)
      modifies this
      ensures granted <==> old(GrantsLeft(State(), mode)) > 0
      ensures granted ==> mode.AutoContinue? && State() == AutoGranted(old(State()), mode.stepsPerGrant)
      ensures granted ==> GrantsLeft(State(), mode) == old(GrantsLeft(State(), mode)) - 1
      ensures !granted ==> State() == old(State())
    {
      if !mode.AutoContinue? || SaturatingSub(mode.maxGrants, autoGrantsUsed) == 0 {
        return false;
      }
      GrantAutoContinue(mode.stepsPerGrant);
      return true;
    }
  }
}
