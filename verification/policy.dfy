/**
 * The management-policy gate of an Object: which lifecycle actions the provider may perform
 * on the external resource. Both the policy and the action are open strings on the wire;
 * the values the code names are cases of their own, anything else is carried as is.
 */
module Policy {

  /** A management policy: the four named literals, or any other string. */
  datatype ManagementPolicy =
    | Default              // the provider fully manages the resource
    | ObserveCreateUpdate  // observe, create and update, never delete
    | ObserveDelete        // observe and delete, never create or update
    | Observe              // observe only
    | Unknown(name: string)

  /** An action on an Object: the three named literals, or any other string. */
  datatype ObjectAction = Create | Update | Delete | OtherAction(name: string)

  /** The wire spelling of a policy. */
  function PolicyName(p: ManagementPolicy): string {
    match p
    case Default => "Default"
    case ObserveCreateUpdate => "ObserveCreateUpdate"
    case ObserveDelete => "ObserveDelete"
    case Observe => "Observe"
    case Unknown(s) => s
  }

  /** The four strings that name a policy. */
  predicate IsPolicyLiteral(s: string) {
    s == "Default" || s == "ObserveCreateUpdate" || s == "ObserveDelete" || s == "Observe"
  }

  /** A policy value as it can arise from the wire: an unknown one never spells a literal. */
  predicate WellFormedPolicy(p: ManagementPolicy) {
    p.Unknown? ==> !IsPolicyLiteral(p.name)
  }

  /** The policies a wire string can denote. */
  type WirePolicy = p: ManagementPolicy | WellFormedPolicy(p) witness Default

  /** The three strings that name an action. */
  predicate IsActionLiteral(s: string) {
    s == "Create" || s == "Update" || s == "Delete"
  }

  /** An action value as it can arise from the wire: an "other" one never spells a literal. */
  predicate WellFormedAction(a: ObjectAction) {
    a.OtherAction? ==> !IsActionLiteral(a.name)
  }

  /** The actions a wire string can denote. */
  type WireAction = a: ObjectAction | WellFormedAction(a) witness Create

  /** Reads a policy from its wire string. */
  function ParsePolicy(s: string): (p: WirePolicy)
    ensures PolicyName(p) == s
    ensures p.Unknown? <==> !IsPolicyLiteral(s)
  {
    if s == "Default" then Default
    else if s == "ObserveCreateUpdate" then ObserveCreateUpdate
    else if s == "ObserveDelete" then ObserveDelete
    else if s == "Observe" then Observe
    else Unknown(s)
  }

  /** The wire spelling of an action. */
  function ActionName(a: ObjectAction): string {
    match a
    case Create => "Create"
    case Update => "Update"
    case Delete => "Delete"
    case OtherAction(s) => s
  }

  /** Reads an action from its wire string. */
  function ParseAction(s: string): (a: WireAction)
    ensures ActionName(a) == s
    ensures a.OtherAction? <==> !IsActionLiteral(s)
  {
    if s == "Create" then Create
    else if s == "Update" then Update
    else if s == "Delete" then Delete
    else OtherAction(s)
  }

  /** Reading back the spelling of a well-formed policy gives the policy. */
  lemma ParsePolicyName(p: WirePolicy)
    ensures ParsePolicy(PolicyName(p)) == p
  {
  }

  /** Reading back the spelling of an action gives the action, unless an "other" action spells a literal. */
  lemma ParseActionName(a: WireAction)
    ensures ParseAction(ActionName(a)) == a
  {
  }

  /** Whether the policy lets the provider perform the action. */
  function IsActionAllowed(p: WirePolicy, action: WireAction): (allowed: bool)
    ensures p == Default ==> allowed
    ensures allowed ==> p == Default || p == ObserveCreateUpdate || p == ObserveDelete
  {
    if action == Create || action == Update then
      p == Default || p == ObserveCreateUpdate
    else
      // Delete, and every action that is neither Create nor Update
      p == Default || p == ObserveDelete
  }

  /** The two permissions a policy grants: to bring the resource forward, and to remove it. */
  datatype Grants = Grants(mayCreateOrUpdate: bool, mayDelete: bool)

  /** A policy's corner of the 2x2 permission lattice; unknown policies grant nothing. */
  function GrantsOf(p: ManagementPolicy): Grants {
    match p
    case Default => Grants(true, true)
    case ObserveCreateUpdate => Grants(true, false)
    case ObserveDelete => Grants(false, true)
    case Observe => Grants(false, false)
    case Unknown(_) => Grants(false, false)
  }

  /** The named policy that sits at a corner of the lattice. */
  function PolicyOf(g: Grants): WirePolicy
  {
    match g
    case Grants(true, true) => Default
    case Grants(true, false) => ObserveCreateUpdate
    case Grants(false, true) => ObserveDelete
    case Grants(false, false) => Observe
  }

  /** The four literals are exactly the four corners: corners and named policies correspond one to one. */
  lemma GrantsCorrespond(p: ManagementPolicy, g: Grants)
    ensures !p.Unknown? ==> PolicyOf(GrantsOf(p)) == p
    ensures GrantsOf(PolicyOf(g)) == g
  {
  }

  /** The gate reads one axis of the lattice: Create and Update need the first, every other action the second. */
  lemma GateIsLattice(p: WirePolicy, action: WireAction)
    ensures IsActionAllowed(p, action) ==
            if action == Create || action == Update then GrantsOf(p).mayCreateOrUpdate
            else GrantsOf(p).mayDelete
  {
  }

  /** `p` grants at least what `q` grants. */
  predicate AtLeast(p: ManagementPolicy, q: ManagementPolicy) {
    (GrantsOf(q).mayCreateOrUpdate ==> GrantsOf(p).mayCreateOrUpdate) &&
    (GrantsOf(q).mayDelete ==> GrantsOf(p).mayDelete)
  }

  /** A policy that grants more allows at least the same actions. */
  lemma GateMonotone(p: WirePolicy, q: WirePolicy, action: WireAction)
    requires AtLeast(p, q)
    ensures IsActionAllowed(q, action) ==> IsActionAllowed(p, action)
  {
    GateIsLattice(p, action);
    GateIsLattice(q, action);
  }

  /** Create and Update are allowed exactly under Default and ObserveCreateUpdate. */
  lemma CreateUpdateGate(p: WirePolicy, action: WireAction)
    requires action == Create || action == Update
    ensures IsActionAllowed(p, action) <==> PolicyName(p) in {"Default", "ObserveCreateUpdate"}
  {
  }

  /** Delete, and any action that is neither Create nor Update, is allowed exactly under Default and ObserveDelete. */
  lemma DeleteGate(p: WirePolicy, action: WireAction)
    requires action != Create && action != Update
    ensures IsActionAllowed(p, action) <==> PolicyName(p) in {"Default", "ObserveDelete"}
  {
  }

  /** Observe, and any policy string outside the four literals, denies every action. */
  lemma ObserveAndUnknownDenyAll(s: string, action: WireAction)
    requires s == "Observe" || !IsPolicyLiteral(s)
    ensures !IsActionAllowed(ParsePolicy(s), action)
  {
  }

  /** The twelve cells of the decision table for the named policies and actions. */
  lemma DecisionTable()
    ensures IsActionAllowed(Default, Create) && IsActionAllowed(Default, Update) && IsActionAllowed(Default, Delete)
    ensures IsActionAllowed(ObserveCreateUpdate, Create) && IsActionAllowed(ObserveCreateUpdate, Update)
    ensures !IsActionAllowed(ObserveCreateUpdate, Delete)
    ensures !IsActionAllowed(ObserveDelete, Create) && !IsActionAllowed(ObserveDelete, Update)
    ensures IsActionAllowed(ObserveDelete, Delete)
    ensures !IsActionAllowed(Observe, Create) && !IsActionAllowed(Observe, Update) && !IsActionAllowed(Observe, Delete)
  {
  }
}
