/**
 * The access policy: a rule engine (role -> list of allow rules) and the rule set of
 * the `users` role.
 *
 * Modelling assumption about the external rule engine: `can(role, resource, op, ctx)`
 * is the OR, over the rules of `role` followed by the rules of the wildcard role '*',
 * of every rule whose name is '*' or equals the resource and whose operation is '*'
 * or equals `op`, and whose `when` predicate returns a truthy value for `ctx`
 * (a rule without `when` always holds). There are no deny rules.
 */
module Rbac {
  import opened Wrappers
  import opened Js
  import opened Nodes

  datatype Operation = Create | Read | Update | Delete

  datatype OperationPattern = AnyOperation | Only(op: Operation)

  datatype NamePattern = AnyName | Named(name: string)

  /** The `when` predicates, as a small predicate language over `{user, node}`. */
  datatype Condition =
    | Always                     // no `when`
    | LabelIsNot(excluded: string)  // ctx.node._label !== excluded
    | SelfOrOwner                // ctx.user._id === ctx.node._id || ctx.node.user_id === ctx.user._id
    | Owner                      // ctx.user._id === ctx.node.user_id
    | NotDeleted                 // !ctx.node.deleted
    | UserIsAdmin                // ctx.user.is_admin

  datatype Rule = Rule(name: NamePattern, operation: OperationPattern, when: Condition)

  datatype Policy = Policy(roles: map<string, seq<Rule>>)

  /** The context handed to a `when` predicate. */
  datatype Context = Context(user: Props, node: Props)

  predicate Holds(c: Condition, ctx: Context)
  {
    match c
    case Always => true
    case LabelIsNot(excluded) => !StrictEquals(Get(ctx.node, LabelKey), Str(excluded))
    case SelfOrOwner =>
      StrictEquals(Get(ctx.user, IdKey), Get(ctx.node, IdKey))
      || StrictEquals(Get(ctx.node, UserIdKey), Get(ctx.user, IdKey))
    case Owner => StrictEquals(Get(ctx.user, IdKey), Get(ctx.node, UserIdKey))
    case NotDeleted => !Truthy(Get(ctx.node, DeletedKey))
    case UserIsAdmin => Truthy(Get(ctx.user, IsAdminKey))
  }

  predicate Matches(rule: Rule, resource: Value, op: Operation)
  {
    (rule.name.AnyName? || StrictEquals(resource, Str(rule.name.name)))
    && (rule.operation.AnyOperation? || rule.operation.op == op)
  }

  /** A single rule allows the request. */
  predicate Grants(rule: Rule, resource: Value, op: Operation, ctx: Context)
  {
    Matches(rule, resource, op) && Holds(rule.when, ctx)
  }

  const WildcardRole := "*"

  function RulesFor(p: Policy, role: string): seq<Rule>
  {
    (if role in p.roles then p.roles[role] else [])
    + (if role != WildcardRole && WildcardRole in p.roles then p.roles[WildcardRole] else [])
  }

  /** The rule engine's evaluation: the first rule, then the rest. */
  function AnyGrants(rules: seq<Rule>, resource: Value, op: Operation, ctx: Context): (b: bool)
    ensures b <==> exists i :: 0 <= i < |rules| && Grants(rules[i], resource, op, ctx)
  {
    if rules == [] then false
    else if Grants(rules[0], resource, op, ctx) then true
    else
      var rest := AnyGrants(rules[1..], resource, op, ctx);
      assert forall i :: 1 <= i < |rules| ==> rules[i] == rules[1..][i - 1];
      rest
  }

  /** `rbac.can(role, resource, op, ctx)`. */
  function Can(p: Policy, role: string, resource: Value, op: Operation, ctx: Context): bool
  {
    AnyGrants(RulesFor(p, role), resource, op, ctx)
  }

  // ---------------------------------------------------------------------------
  // The rule set of src/rbac.js

  const UsersRole := "users"

  const LolaRules: seq<Rule> := [
    Rule(AnyName, Only(Create), LabelIsNot(UsersLabel)),
    Rule(AnyName, Only(Update), SelfOrOwner),
    Rule(AnyName, Only(Delete), Owner),
    Rule(AnyName, Only(Read), NotDeleted),
    Rule(AnyName, AnyOperation, UserIsAdmin)
  ]

  const LolaPolicy := Policy(map[UsersRole := LolaRules])

  /** `{ roles: { '*': { can: ['*'] } } }`: a wildcard role that can do anything. */
  const AllowAll := Policy(map[WildcardRole := [Rule(AnyName, AnyOperation, Always)]])

  /** `ctx.user.is_admin` is truthy. */
  predicate IsAdmin(ctx: Context)
  {
    Truthy(Get(ctx.user, IsAdminKey))
  }

  /** The per-operation predicate of src/rbac.js, written out without the engine. */
  predicate RuleFor(op: Operation, ctx: Context)
  {
    match op
    case Create => !StrictEquals(Get(ctx.node, LabelKey), Str(UsersLabel))
    case Update =>
      StrictEquals(Get(ctx.user, IdKey), Get(ctx.node, IdKey))
      || StrictEquals(Get(ctx.node, UserIdKey), Get(ctx.user, IdKey))
    case Delete => StrictEquals(Get(ctx.user, IdKey), Get(ctx.node, UserIdKey))
    case Read => !Truthy(Get(ctx.node, DeletedKey))
  }

  /** The engine over the `users` rules decides exactly "operation rule OR admin". */
  lemma {:induction false} LolaVerdict(resource: Value, op: Operation, ctx: Context)
    ensures Can(LolaPolicy, UsersRole, resource, op, ctx) <==> RuleFor(op, ctx) || IsAdmin(ctx)
  {
    var rules := RulesFor(LolaPolicy, UsersRole);
    assert rules == LolaRules;
    var k := match op case Create => 0 case Update => 1 case Delete => 2 case Read => 3;
    assert Grants(rules[k], resource, op, ctx) <==> RuleFor(op, ctx);
    assert Grants(rules[4], resource, op, ctx) <==> IsAdmin(ctx);
    forall i | 0 <= i < |rules| && i != k && i != 4
      ensures !Grants(rules[i], resource, op, ctx)
    {
    }
  }

  lemma CreateVerdict(resource: Value, ctx: Context)
    ensures Can(LolaPolicy, UsersRole, resource, Create, ctx)
        <==> !StrictEquals(Get(ctx.node, LabelKey), Str(UsersLabel)) || IsAdmin(ctx)
  {
    LolaVerdict(resource, Create, ctx);
  }

  lemma UpdateVerdict(resource: Value, ctx: Context)
    ensures Can(LolaPolicy, UsersRole, resource, Update, ctx)
        <==> StrictEquals(Get(ctx.user, IdKey), Get(ctx.node, IdKey))
             || StrictEquals(Get(ctx.node, UserIdKey), Get(ctx.user, IdKey))
             || IsAdmin(ctx)
  {
    LolaVerdict(resource, Update, ctx);
  }

  lemma DeleteVerdict(resource: Value, ctx: Context)
    ensures Can(LolaPolicy, UsersRole, resource, Delete, ctx)
        <==> StrictEquals(Get(ctx.user, IdKey), Get(ctx.node, UserIdKey)) || IsAdmin(ctx)
  {
    LolaVerdict(resource, Delete, ctx);
  }

  lemma ReadVerdict(resource: Value, ctx: Context)
    ensures Can(LolaPolicy, UsersRole, resource, Read, ctx)
        <==> !Truthy(Get(ctx.node, DeletedKey)) || IsAdmin(ctx)
  {
    LolaVerdict(resource, Read, ctx);
  }

  /** A truthy `is_admin` grants every operation on every resource. */
  lemma AdminGrantsEverything(resource: Value, op: Operation, ctx: Context)
    requires IsAdmin(ctx)
    ensures Can(LolaPolicy, UsersRole, resource, op, ctx)
  {
    LolaVerdict(resource, op, ctx);
  }

  /** Delete is never looser than update. */
  lemma DeleteImpliesUpdate(resource: Value, ctx: Context)
    ensures Can(LolaPolicy, UsersRole, resource, Delete, ctx)
        ==> Can(LolaPolicy, UsersRole, resource, Update, ctx)
  {
    LolaVerdict(resource, Delete, ctx);
    LolaVerdict(resource, Update, ctx);
    StrictEqualsSymmetric(Get(ctx.user, IdKey), Get(ctx.node, UserIdKey));
  }

  /** Every rule is named '*': the resource name never changes the verdict. */
  lemma ResourceIsIrrelevant(r1: Value, r2: Value, op: Operation, ctx: Context)
    ensures Can(LolaPolicy, UsersRole, r1, op, ctx) == Can(LolaPolicy, UsersRole, r2, op, ctx)
  {
    LolaVerdict(r1, op, ctx);
    LolaVerdict(r2, op, ctx);
  }

  /** The wildcard policy allows everything to every role. */
  lemma AllowAllGrantsEverything(role: string, resource: Value, op: Operation, ctx: Context)
    ensures Can(AllowAll, role, resource, op, ctx)
  {
    var rules := RulesFor(AllowAll, role);
    assert Grants(rules[|rules| - 1], resource, op, ctx);
  }

  /**
   * The policy options handed to the constructors: an object whose keys are
   * `roles` (when present) and `otherKeys` further keys.
   */
  datatype RbacOptions = RbacOptions(roles: Option<map<string, seq<Rule>>>, otherKeys: nat)

  /** `Object.keys(rbacOptions).length === 0`. */
  predicate NoKeys(o: RbacOptions)
  {
    o.roles.None? && o.otherKeys == 0
  }

  /** `new RBAC(rbacOptions)`: a missing `roles` key means no roles. */
  function FromOptions(o: RbacOptions): Policy
  {
    Policy(if o.roles.Some? then o.roles.value else map[])
  }

  /** What both constructors throw when no options are given. */
  const RbacRequiredMessage := "You must provide at least an empty object for RBAC"

  /** Empty options become the allow-all policy; others are used as given. */
  function ChoosePolicy(o: RbacOptions): (p: Policy)
    ensures NoKeys(o) ==> forall role, resource, op, ctx :: Can(p, role, resource, op, ctx)
    ensures !NoKeys(o) ==> p == FromOptions(o)
  {
    if NoKeys(o) then
      assert forall role, resource, op, ctx :: Can(AllowAll, role, resource, op, ctx) by {
        forall role, resource, op, ctx ensures Can(AllowAll, role, resource, op, ctx) {
          AllowAllGrantsEverything(role, resource, op, ctx);
        }
      }
      AllowAll
    else FromOptions(o)
  }
}
