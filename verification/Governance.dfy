/**
 The market's authorities: who holds which role, the bridge freeze, the purchase pause,
 and the time-locked requests that reopen them or rotate an authority.
 A result of `None` is a panic: the call changes nothing.
 */
module Governance {
  import opened Common

  const ROTATION_DELAY_MS: nat := 172_800_000 // 48 hours
  const REOPEN_DELAY_MS: nat := 86_400_000 // 24 hours

  datatype Role = Admin | Guardian | Platform | TakedownAuthority | PaymentOperator

  datatype Roles = Roles(
    admin: AccountId,
    guardian: AccountId,
    platform: AccountId,
    takedown: AccountId,
    operator: AccountId,
    tax: AccountId,
    bridge: AccountId)

  datatype PendingRotation = PendingRotation(current: AccountId, next: AccountId, proposedAt: nat, executableAt: nat)

  /** The bridge freeze and the purchase pause are the same kind of switch. */
  datatype Switch = Bridge | Purchases

  /** A switch, and the pending request to open it again. */
  datatype Latch = Latch(closed: bool, request: Option<nat>)

  datatype Gov = Gov(
    mainnet: bool,
    roles: Roles,
    pendingBridge: Option<AccountId>,
    bridgeProposedAt: Option<nat>,
    rotations: map<Role, PendingRotation>,
    freeze: Latch,
    pause: Latch,
    vatKeys: set<nat>)

  // ---------------------------------------------------------------- roles

  function Holder(rs: Roles, role: Role): AccountId {
    match role
    case Admin => rs.admin
    case Guardian => rs.guardian
    case Platform => rs.platform
    case TakedownAuthority => rs.takedown
    case PaymentOperator => rs.operator
  }

  function WithHolder(rs: Roles, role: Role, next: AccountId): Roles {
    match role
    case Admin => rs.(admin := next)
    case Guardian => rs.(guardian := next)
    case Platform => rs.(platform := next)
    case TakedownAuthority => rs.(takedown := next)
    case PaymentOperator => rs.(operator := next)
  }

  /** The inequalities that keep the authorities apart. */
  predicate Separated(rs: Roles) {
    && rs.operator != rs.bridge
    && rs.operator != rs.platform
    && rs.operator != rs.admin
    && rs.operator != rs.guardian
    && rs.operator != rs.takedown
    && rs.operator != rs.tax
    && rs.platform != rs.bridge
    && rs.admin != rs.guardian
    && rs.admin != rs.bridge
    && rs.guardian != rs.bridge
    && rs.takedown != rs.bridge
    && rs.takedown != rs.platform
  }

  predicate ValidBridge(rs: Roles, account: AccountId) {
    && account != rs.bridge
    && account != rs.platform
    && account != rs.takedown
    && account != rs.admin
    && account != rs.guardian
    && account != rs.operator
  }

  predicate ValidAssignment(g: Gov, role: Role, next: AccountId) {
    && next != Holder(g.roles, role)
    && Separated(WithHolder(g.roles, role, next))
    && g.pendingBridge != Some(next)
  }

  predicate AdminOrGuardian(g: Gov, caller: AccountId) {
    caller == g.roles.admin || caller == g.roles.guardian
  }

  // ---------------------------------------------------------------- time locks

  /** Test networks have no delays. */
  function Delay(g: Gov, mainnetDelay: nat): nat {
    if g.mainnet then mainnetDelay else 0
  }

  /** The end of a delay, or a panic when it does not fit 64 bits. */
  function After(start: nat, delay: nat): Option<nat> {
    if start + delay <= U64_MAX then Some(start + delay) else None
  }

  predicate Elapsed(requested: Option<nat>, delay: nat, now: nat) {
    requested.Some? && After(requested.value, delay).Some? && requested.value + delay <= now
  }

  // ---------------------------------------------------------------- freeze and pause

  function GetLatch(g: Gov, which: Switch): Latch {
    if which.Bridge? then g.freeze else g.pause
  }

  function SetLatch(g: Gov, which: Switch, latch: Latch): Gov {
    if which.Bridge? then g.(freeze := latch) else g.(pause := latch)
  }

  /** `freeze_bridge` and `pause_new_purchases`. */
  function Close(g: Gov, caller: AccountId, which: Switch): Option<Gov> {
    if caller != g.roles.guardian then None
    else Some(SetLatch(g, which, GetLatch(g, which).(closed := true)))
  }

  /** `request_bridge_unfreeze` and `request_new_purchases_unpause`. */
  function RequestReopen(g: Gov, now: nat, caller: AccountId, which: Switch): Option<Gov> {
    var latch := GetLatch(g, which);
    if caller != g.roles.admin || !latch.closed then None
    else if latch.request.Some? then Some(g)
    else if After(now, Delay(g, REOPEN_DELAY_MS)).None? then None
    else Some(SetLatch(g, which, latch.(request := Some(now))))
  }

  /** `cancel_bridge_unfreeze` and `cancel_new_purchases_unpause`. */
  function CancelReopen(g: Gov, caller: AccountId, which: Switch): Option<Gov> {
    if !AdminOrGuardian(g, caller) then None
    else Some(SetLatch(g, which, GetLatch(g, which).(request := None)))
  }

  /** `unfreeze_bridge` and `unpause_new_purchases`. */
  function Reopen(g: Gov, now: nat, caller: AccountId, which: Switch): Option<Gov> {
    var latch := GetLatch(g, which);
    if caller != g.roles.admin then None
    else if latch.closed && !Elapsed(latch.request, Delay(g, REOPEN_DELAY_MS), now) then None
    else Some(SetLatch(g, which, Latch(false, None)))
  }

  /** `open` says whether a beta campaign exists and has not been closed before. */
  function CloseBeta(g: Gov, caller: AccountId, started: bool, open: bool): Option<Gov> {
    if caller != g.roles.guardian || !started then None
    else if !open then Some(g)
    else Some(g.(pause := g.pause.(closed := true)))
  }

  // ---------------------------------------------------------------- rotations

  function ProposeBridge(g: Gov, now: nat, caller: AccountId, next: AccountId): Option<Gov> {
    if caller != g.roles.admin || !ValidBridge(g.roles, next) then None
    else if g.pendingBridge == Some(next) then Some(g)
    else if g.pendingBridge.Some? || After(now, Delay(g, ROTATION_DELAY_MS)).None? then None
    else Some(g.(pendingBridge := Some(next), bridgeProposedAt := Some(now)))
  }

  function CancelBridge(g: Gov, caller: AccountId): Option<Gov> {
    if !AdminOrGuardian(g, caller) then None
    else if g.pendingBridge.None? then Some(g)
    else Some(g.(pendingBridge := None, bridgeProposedAt := None))
  }

  /** Separation is not checked again here. */
  function ExecuteBridge(g: Gov, now: nat, caller: AccountId): Option<Gov> {
    if caller != g.roles.admin || !Elapsed(g.bridgeProposedAt, Delay(g, ROTATION_DELAY_MS), now)
       || g.pendingBridge.None? then None
    else Some(g.(roles := g.roles.(bridge := g.pendingBridge.value), pendingBridge := None, bridgeProposedAt := None))
  }

  function ProposeRole(g: Gov, now: nat, caller: AccountId, role: Role, next: AccountId): Option<Gov> {
    if caller != g.roles.admin then None
    else if role in g.rotations then
      if g.rotations[role].next == next then Some(g) else None
    else
      var end := After(now, Delay(g, ROTATION_DELAY_MS));
      if !ValidAssignment(g, role, next) || end.None? then None
      else Some(g.(rotations := g.rotations[role := PendingRotation(Holder(g.roles, role), next, now, end.value)]))
  }

  function CancelRole(g: Gov, caller: AccountId, role: Role): Option<Gov> {
    if !AdminOrGuardian(g, caller) then None else Some(g.(rotations := g.rotations - {role}))
  }

  function ExecuteRole(g: Gov, now: nat, caller: AccountId, role: Role): Option<Gov> {
    if caller != g.roles.admin || role !in g.rotations then None
    else
      var p := g.rotations[role];
      if now < p.executableAt || Holder(g.roles, role) != p.current || !ValidAssignment(g, role, p.next) then None
      else Some(g.(rotations := g.rotations - {role}, roles := WithHolder(g.roles, role, p.next)))
  }

  function RevokeVatKey(g: Gov, caller: AccountId, version: nat): Option<Gov> {
    if !AdminOrGuardian(g, caller) || version !in g.vatKeys then None
    else Some(g.(vatKeys := g.vatKeys - {version}))
  }

  // ---------------------------------------------------------------- creation

  datatype Config = Config(mainnet: bool, roles: Roles, vatKeyVersion: nat)

  /** `new`; the formats of the configured keys are checked before the model starts. */
  function Create(c: Config): Option<Gov> {
    if !Separated(c.roles) || c.roles.tax == c.roles.platform || c.roles.tax == c.roles.bridge || c.vatKeyVersion == 0
    then None
    else Some(Gov(c.mainnet, c.roles, None, None, map[], Latch(false, None), Latch(false, None), {c.vatKeyVersion}))
  }

  // ---------------------------------------------------------------- one call

  datatype GovOp =
    | Closing(which: Switch)
    | ReopenRequest(which: Switch)
    | ReopenCancellation(which: Switch)
    | Reopening(which: Switch)
    | BetaClosing(started: bool, open: bool)
    | BridgeProposal(next: AccountId)
    | BridgeCancellation
    | BridgeExecution
    | RoleProposal(role: Role, next: AccountId)
    | RoleCancellation(role: Role)
    | RoleExecution(role: Role)
    | VatKeyRevocation(version: nat)

  function ApplyGov(g: Gov, now: nat, caller: AccountId, op: GovOp): Option<Gov> {
    match op
    case Closing(which) => Close(g, caller, which)
    case ReopenRequest(which) => RequestReopen(g, now, caller, which)
    case ReopenCancellation(which) => CancelReopen(g, caller, which)
    case Reopening(which) => Reopen(g, now, caller, which)
    case BetaClosing(started, open) => CloseBeta(g, caller, started, open)
    case BridgeProposal(next) => ProposeBridge(g, now, caller, next)
    case BridgeCancellation => CancelBridge(g, caller)
    case BridgeExecution => ExecuteBridge(g, now, caller)
    case RoleProposal(role, next) => ProposeRole(g, now, caller, role, next)
    case RoleCancellation(role) => CancelRole(g, caller, role)
    case RoleExecution(role) => ExecuteRole(g, now, caller, role)
    case VatKeyRevocation(version) => RevokeVatKey(g, caller, version)
  }

  // ---------------------------------------------------------------- invariant

  /**
   A proposed bridge differs from every current authority: this is what lets `ExecuteBridge`
   check nothing again.
   */
  predicate RolesInv(g: Gov) {
    Separated(g.roles) && (g.pendingBridge.Some? ==> ValidBridge(g.roles, g.pendingBridge.value))
  }

  predicate SwitchesOk(g: Gov) {
    (g.freeze.request.Some? ==> g.freeze.closed) && (g.pause.request.Some? ==> g.pause.closed)
  }

  predicate RotationsOk(g: Gov) {
    forall r | r in g.rotations :: g.rotations[r].executableAt == g.rotations[r].proposedAt + Delay(g, ROTATION_DELAY_MS)
  }

  /** Requests are complete, and a request to reopen exists only while closed. */
  predicate LocksInv(g: Gov) {
    && (g.pendingBridge.Some? <==> g.bridgeProposedAt.Some?)
    && SwitchesOk(g) && RotationsOk(g)
  }

  predicate GovInv(g: Gov) {
    RolesInv(g) && LocksInv(g)
  }

  /** Every governance call keeps the authorities apart. */
  lemma GovStepKeepsRoles(g: Gov, now: nat, caller: AccountId, op: GovOp)
    requires RolesInv(g)
    requires ApplyGov(g, now, caller, op).Some?
    ensures RolesInv(ApplyGov(g, now, caller, op).value)
  {
    var n := ApplyGov(g, now, caller, op).value;
    if op.RoleExecution? {
      match op.role
      case Admin =>
      case Guardian =>
      case Platform =>
      case TakedownAuthority =>
      case PaymentOperator =>
    } else if op.BridgeExecution? {
    } else {
      assert n.roles == g.roles;
    }
  }

  predicate IsSwitchCall(op: GovOp) {
    op.Closing? || op.ReopenRequest? || op.ReopenCancellation? || op.Reopening? || op.BetaClosing?
  }

  predicate IsBridgeCall(op: GovOp) {
    op.BridgeProposal? || op.BridgeCancellation? || op.BridgeExecution?
  }

  predicate IsRoleCall(op: GovOp) {
    op.RoleProposal? || op.RoleCancellation? || op.RoleExecution?
  }

  /** A call leaves alone what belongs to the other kinds of call. */
  lemma OthersUntouched(g: Gov, now: nat, caller: AccountId, op: GovOp)
    requires ApplyGov(g, now, caller, op).Some?
    ensures var n := ApplyGov(g, now, caller, op).value;
            && n.mainnet == g.mainnet
            && (!IsSwitchCall(op) ==> n.freeze == g.freeze && n.pause == g.pause)
            && (!IsBridgeCall(op) ==> n.pendingBridge == g.pendingBridge && n.bridgeProposedAt == g.bridgeProposedAt && n.roles.bridge == g.roles.bridge)
            && (!IsRoleCall(op) ==> n.rotations == g.rotations && n.roles == g.roles.(bridge := n.roles.bridge))
  {
    hide Elapsed, After, ValidAssignment, ValidBridge, AdminOrGuardian, Delay;
  }

  lemma SwitchCallKeepsSwitches(g: Gov, now: nat, caller: AccountId, op: GovOp)
    requires IsSwitchCall(op) && SwitchesOk(g) && ApplyGov(g, now, caller, op).Some?
    ensures SwitchesOk(ApplyGov(g, now, caller, op).value)
  {
    hide Elapsed, After, AdminOrGuardian, Delay;
  }

  lemma RoleCallKeepsRotations(g: Gov, now: nat, caller: AccountId, op: GovOp)
    requires IsRoleCall(op) && RotationsOk(g) && ApplyGov(g, now, caller, op).Some?
    ensures RotationsOk(ApplyGov(g, now, caller, op).value)
  {
    hide ValidAssignment, AdminOrGuardian, WithHolder;
  }

  lemma GovStepKeepsLocks(g: Gov, now: nat, caller: AccountId, op: GovOp)
    requires LocksInv(g)
    requires ApplyGov(g, now, caller, op).Some?
    ensures LocksInv(ApplyGov(g, now, caller, op).value)
  {
    OthersUntouched(g, now, caller, op);
    if IsSwitchCall(op) {
      SwitchCallKeepsSwitches(g, now, caller, op);
    } else if IsRoleCall(op) {
      RoleCallKeepsRotations(g, now, caller, op);
    }
    hide Close, RequestReopen, CancelReopen, Reopen, CloseBeta, ProposeRole, CancelRole, ExecuteRole, Elapsed, ValidBridge, AdminOrGuardian;
  }

  // ---------------------------------------------------------------- what a time lock guards

  datatype Lock = OpenSwitch(which: Switch) | RotateBridge | RotateRole(role: Role)

  /** A pending request: when it was made and, for a rotation, who is to take over. */
  datatype Request = Request(at: nat, target: Option<AccountId>)

  function PendingRequest(g: Gov, lock: Lock): Option<Request> {
    match lock
    case OpenSwitch(which) =>
      var r := GetLatch(g, which).request;
      if r.Some? then Some(Request(r.value, None)) else None
    case RotateBridge =>
      if g.bridgeProposedAt.Some? then Some(Request(g.bridgeProposedAt.value, g.pendingBridge)) else None
    case RotateRole(role) =>
      if role in g.rotations then Some(Request(g.rotations[role].proposedAt, Some(g.rotations[role].next))) else None
  }

  function LockDelay(g: Gov, lock: Lock): nat {
    Delay(g, if lock.OpenSwitch? then REOPEN_DELAY_MS else ROTATION_DELAY_MS)
  }

  /** The guarded change happened between `g` and `n`. */
  predicate Fired(g: Gov, n: Gov, lock: Lock) {
    match lock
    case OpenSwitch(which) => GetLatch(g, which).closed && !GetLatch(n, which).closed
    case RotateBridge => n.roles.bridge != g.roles.bridge
    case RotateRole(role) => Holder(n.roles, role) != Holder(g.roles, role)
  }

  /** The account installed by a rotation; nothing for a reopening. */
  function Installed(n: Gov, lock: Lock): Option<AccountId> {
    match lock
    case OpenSwitch(_) => None
    case RotateBridge => Some(n.roles.bridge)
    case RotateRole(role) => Some(Holder(n.roles, role))
  }

  /** The call that asks for what the lock guards. */
  predicate Requests(op: GovOp, lock: Lock) {
    match lock
    case OpenSwitch(which) => op == GovOp.ReopenRequest(which)
    case RotateBridge => op.BridgeProposal?
    case RotateRole(role) => op.RoleProposal? && op.role == role
  }

  lemma SwitchRequestBeginsNow(g: Gov, now: nat, caller: AccountId, op: GovOp, which: Switch)
    requires IsSwitchCall(op) && ApplyGov(g, now, caller, op).Some?
    ensures var n := ApplyGov(g, now, caller, op).value; var r, q := GetLatch(g, which).request, GetLatch(n, which).request;
            q.Some? ==> q == r || (r.None? && q == Some(now) && op == GovOp.ReopenRequest(which) && caller == g.roles.admin)
  {
    hide Elapsed, After, AdminOrGuardian, Delay;
  }

  lemma BridgeRequestBeginsNow(g: Gov, now: nat, caller: AccountId, op: GovOp)
    requires IsBridgeCall(op) && LocksInv(g) && ApplyGov(g, now, caller, op).Some?
    ensures var n := ApplyGov(g, now, caller, op).value;
            n.bridgeProposedAt.Some? ==>
              (n.bridgeProposedAt == g.bridgeProposedAt && n.pendingBridge == g.pendingBridge)
              || (g.bridgeProposedAt.None? && n.bridgeProposedAt == Some(now) && op.BridgeProposal? && caller == g.roles.admin)
  {
    hide Elapsed, After, ValidBridge, AdminOrGuardian, Delay;
  }

  lemma RoleRequestBeginsNow(g: Gov, now: nat, caller: AccountId, op: GovOp, role: Role)
    requires IsRoleCall(op) && ApplyGov(g, now, caller, op).Some?
    ensures var n := ApplyGov(g, now, caller, op).value;
            role in n.rotations ==>
              (role in g.rotations && n.rotations[role] == g.rotations[role])
              || (role !in g.rotations && n.rotations[role].proposedAt == now && op.RoleProposal? && op.role == role && caller == g.roles.admin)
  {
    hide After, ValidAssignment, AdminOrGuardian, WithHolder, Delay;
  }

  /** A request is either the earlier one, untouched, or was made by the admin in this very call. */
  lemma RequestsBeginNow(g: Gov, now: nat, caller: AccountId, op: GovOp, lock: Lock)
    requires LocksInv(g)
    requires ApplyGov(g, now, caller, op).Some?
    ensures var n := ApplyGov(g, now, caller, op).value;
            PendingRequest(n, lock).Some? ==>
              PendingRequest(n, lock) == PendingRequest(g, lock)
              || (PendingRequest(g, lock).None? && PendingRequest(n, lock).value.at == now && Requests(op, lock) && caller == g.roles.admin)
  {
    OthersUntouched(g, now, caller, op);
    hide ApplyGov;
    match lock
    case OpenSwitch(which) => if IsSwitchCall(op) { SwitchRequestBeginsNow(g, now, caller, op, which); }
    case RotateBridge => if IsBridgeCall(op) { BridgeRequestBeginsNow(g, now, caller, op); }
    case RotateRole(role) => if IsRoleCall(op) { RoleRequestBeginsNow(g, now, caller, op, role); }
  }

  lemma SwitchOpensOnRequest(g: Gov, now: nat, caller: AccountId, op: GovOp, which: Switch)
    requires IsSwitchCall(op) && ApplyGov(g, now, caller, op).Some?
    requires GetLatch(g, which).closed && !GetLatch(ApplyGov(g, now, caller, op).value, which).closed
    ensures Elapsed(GetLatch(g, which).request, Delay(g, REOPEN_DELAY_MS), now) && caller == g.roles.admin
    ensures GetLatch(ApplyGov(g, now, caller, op).value, which).request.None?
  {
    hide Elapsed, After, AdminOrGuardian, Delay;
  }

  lemma BridgeChangesOnRequest(g: Gov, now: nat, caller: AccountId, op: GovOp)
    requires IsBridgeCall(op) && ApplyGov(g, now, caller, op).Some? && ApplyGov(g, now, caller, op).value.roles.bridge != g.roles.bridge
    ensures Elapsed(g.bridgeProposedAt, Delay(g, ROTATION_DELAY_MS), now) && caller == g.roles.admin
    ensures g.pendingBridge == Some(ApplyGov(g, now, caller, op).value.roles.bridge) && ApplyGov(g, now, caller, op).value.bridgeProposedAt.None?
  {
    hide Elapsed, After, ValidBridge, AdminOrGuardian, Delay;
  }

  lemma RoleChangesOnRequest(g: Gov, now: nat, caller: AccountId, op: GovOp, role: Role)
    requires IsRoleCall(op) && ApplyGov(g, now, caller, op).Some? && Holder(ApplyGov(g, now, caller, op).value.roles, role) != Holder(g.roles, role)
    ensures role in g.rotations && g.rotations[role].executableAt <= now && caller == g.roles.admin
    ensures var n := ApplyGov(g, now, caller, op).value; Holder(n.roles, role) == g.rotations[role].next && role !in n.rotations
  {
    hide After, ValidAssignment, AdminOrGuardian, Delay;
  }

  /** A guarded change uses up a request that has waited out its delay, for the account it names. */
  lemma FiringNeedsRequest(g: Gov, now: nat, caller: AccountId, op: GovOp, lock: Lock)
    requires LocksInv(g)
    requires ApplyGov(g, now, caller, op).Some?
    requires Fired(g, ApplyGov(g, now, caller, op).value, lock)
    ensures var n := ApplyGov(g, now, caller, op).value;
            && PendingRequest(g, lock).Some?
            && PendingRequest(g, lock).value.at + LockDelay(g, lock) <= now
            && PendingRequest(g, lock).value.target == Installed(n, lock)
            && PendingRequest(n, lock).None?
            && caller == g.roles.admin
  {
    OthersUntouched(g, now, caller, op);
    hide ApplyGov;
    match lock
    case OpenSwitch(which) => SwitchOpensOnRequest(g, now, caller, op, which);
    case RotateBridge => BridgeChangesOnRequest(g, now, caller, op);
    case RotateRole(role) => RoleChangesOnRequest(g, now, caller, op, role);
  }
}
