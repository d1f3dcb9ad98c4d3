/** The policy engine's decision (packages/engine/src/policy-engine.ts). */
module PolicyEngines {
  import opened Wrappers
  import opened ContactBudgets
  import opened QuietHours

  datatype Rules = Rules(
    caps: ContactBudgets.Policy,
    quiet: Quiet,
    maxAttemptsPerCase: nat,
    requireApprovalAbovePaise: int,
    allowedActions: map<string, set<string>>)

  datatype Action = Action(id: string, consumesContactBudget: bool, quietHoursEnforced: bool)

  datatype Context = Context(
    who: CustomerId,
    rail: string,
    action: Action,
    channel: Option<string>,
    attemptNo: nat,
    amountPaise: Option<int>,
    optedOut: bool)

  datatype RuleId = NotAllowedOnRail | OptedOut | RetryCap | QuietHoursRule | ContactBudgetRule | AmountApproval | Allowed

  datatype Outcome = Allow | Block | RequireApproval

  datatype Decision = Decision(outcome: Outcome, rule: RuleId)

  function ChannelOf(ctx: Context): string {
    if ctx.channel.Some? then ctx.channel.value else "sms"
  }

  predicate OnRail(rules: Rules, ctx: Context) {
    ctx.rail in rules.allowedActions && ctx.action.id in rules.allowedActions[ctx.rail]
  }

  /** Whether a rule objects to an action, each rule taken by itself. */
  predicate Objects(rule: RuleId, rules: Rules, table: Table, ctx: Context, now: int)
    requires Sound(rules.caps)
  {
    match rule
    case NotAllowedOnRail => !OnRail(rules, ctx)
    case OptedOut => ctx.optedOut && ctx.action.consumesContactBudget
    case RetryCap => ctx.attemptNo >= rules.maxAttemptsPerCase
    case QuietHoursRule => ctx.action.quietHoursEnforced && InQuietHours(now, rules.quiet)
    case ContactBudgetRule => ctx.action.consumesContactBudget && Exhausted(table, rules.caps, ctx.who, ChannelOf(ctx), now)
    case AmountApproval => ctx.amountPaise.Some? && ctx.amountPaise.value > rules.requireApprovalAbovePaise
    case Allowed => false
  }

  /** The rules in the order they are consulted. */
  const ORDER: seq<RuleId> := [NotAllowedOnRail, OptedOut, RetryCap, QuietHoursRule, ContactBudgetRule, AmountApproval]

  ghost predicate CitesFirst(d: Decision, rules: Rules, table: Table, ctx: Context, now: int)
    requires Sound(rules.caps)
  {
    if forall i :: 0 <= i < |ORDER| ==> !Objects(ORDER[i], rules, table, ctx, now) then d == Decision(Allow, Allowed)
    else exists i :: 0 <= i < |ORDER| && d.rule == ORDER[i] && Objects(ORDER[i], rules, table, ctx, now)
                     && (forall j :: 0 <= j < i ==> !Objects(ORDER[j], rules, table, ctx, now))
                     && d.outcome == if d.rule.AmountApproval? then RequireApproval else Block
  }

  /** Each rule in the engine's own terms, in the order of precedence; what none of them objects to is allowed. */
  lemma DecisionIs(d: Decision, rules: Rules, table: Table, ctx: Context, now: int)
    requires Sound(rules.caps) && CitesFirst(d, rules, table, ctx, now)
    ensures var onRail := ctx.rail in rules.allowedActions && ctx.action.id in rules.allowedActions[ctx.rail];
            var silenced := ctx.optedOut && ctx.action.consumesContactBudget;
            var worn := ctx.attemptNo >= rules.maxAttemptsPerCase;
            var asleep := ctx.action.quietHoursEnforced && InQuietHours(now, rules.quiet);
            var channel := if ctx.channel.Some? then ctx.channel.value else "sms";
            var spent := ctx.action.consumesContactBudget && Exhausted(table, rules.caps, ctx.who, channel, now);
            var large := ctx.amountPaise.Some? && ctx.amountPaise.value > rules.requireApprovalAbovePaise;
            && (d == Decision(Block, NotAllowedOnRail) <==> !onRail)
            && (d == Decision(Block, OptedOut) <==> onRail && silenced)
            && (d == Decision(Block, RetryCap) <==> onRail && !silenced && worn)
            && (d == Decision(Block, QuietHoursRule) <==> onRail && !silenced && !worn && asleep)
            && (d == Decision(Block, ContactBudgetRule) <==> onRail && !silenced && !worn && !asleep && spent)
            && (d == Decision(RequireApproval, AmountApproval) <==> onRail && !silenced && !worn && !asleep && !spent && large)
            && (d == Decision(Allow, Allowed) <==> onRail && !silenced && !worn && !asleep && !spent && !large)
  {
    hide Exhausted, InQuietHours;
    assert |ORDER| == 6 && ORDER[0] == NotAllowedOnRail && ORDER[1] == OptedOut && ORDER[2] == RetryCap;
    assert ORDER[3] == QuietHoursRule && ORDER[4] == ContactBudgetRule && ORDER[5] == AmountApproval;
    if i :| 0 <= i < |ORDER| && d.rule == ORDER[i] && Objects(ORDER[i], rules, table, ctx, now)
            && (forall j :: 0 <= j < i ==> !Objects(ORDER[j], rules, table, ctx, now)) {
      assert forall j :: 0 <= j < i ==> !Objects(ORDER[j], rules, table, ctx, now);
    } else {
      assert !Objects(ORDER[0], rules, table, ctx, now) && !Objects(ORDER[1], rules, table, ctx, now);
      assert !Objects(ORDER[2], rules, table, ctx, now) && !Objects(ORDER[3], rules, table, ctx, now);
      assert !Objects(ORDER[4], rules, table, ctx, now) && !Objects(ORDER[5], rules, table, ctx, now);
    }
  }

  class PolicyEngine {
    const rules: Rules
    const budgets: Budgets

    constructor (rules: Rules, budgets: Budgets)
      requires Sound(rules.caps) && budgets.policy == rules.caps
      ensures this.rules == rules && this.budgets == budgets
    {
      this.rules, this.budgets := rules, budgets;
    }

    /** Cites the first rule that objects, and allows exactly when none does. It spends nothing. */
    method Evaluate(ctx: Context, now: int) returns (d: Decision)
      requires Sound(rules.caps) && budgets.policy == rules.caps
      ensures CitesFirst(d, rules, budgets.table, ctx, now)
    {
      hide Exhausted, InQuietHours, OnRail;
      ghost var t := budgets.table;
      if !OnRail(rules, ctx) {
        assert Objects(ORDER[0], rules, t, ctx, now);
        return Decision(Block, NotAllowedOnRail);
      }
      if ctx.optedOut && ctx.action.consumesContactBudget {
        assert Objects(ORDER[1], rules, t, ctx, now);
        return Decision(Block, OptedOut);
      }
      if ctx.attemptNo >= rules.maxAttemptsPerCase {
        assert Objects(ORDER[2], rules, t, ctx, now);
        return Decision(Block, RetryCap);
      }
      if ctx.action.quietHoursEnforced && InQuietHours(now, rules.quiet) {
        assert Objects(ORDER[3], rules, t, ctx, now);
        return Decision(Block, QuietHoursRule);
      }
      if ctx.action.consumesContactBudget {
        var exhausted := budgets.BudgetExhausted(ctx.who, ChannelOf(ctx), now);
        if exhausted {
          assert Objects(ORDER[4], rules, t, ctx, now);
          return Decision(Block, ContactBudgetRule);
        }
      }
      if ctx.amountPaise.Some? && ctx.amountPaise.value > rules.requireApprovalAbovePaise {
        assert Objects(ORDER[5], rules, t, ctx, now);
        return Decision(RequireApproval, AmountApproval);
      }
      return Decision(Allow, Allowed);
    }
  }
}
