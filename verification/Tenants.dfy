/** The tenant store: organisations, their members, workspaces and devices, and what they used. */
module Tenants {
  import opened Wrappers
  import opened Bytes
  import opened Ids
  import opened Stores
  import Grants

  datatype Role = Viewer | Operator | Admin {
    function Rank(): nat {
      match this
      case Viewer => 0
      case Operator => 1
      case Admin => 2
    }
  }

  datatype User = User(userId: string, displayName: string)
  datatype Organization = Organization(organizationId: string, name: string)
  datatype Membership = Membership(organizationId: string, userId: string, role: Role, revoked: bool)
  datatype Workspace = Workspace(organizationId: string, workspaceId: string, name: string)
  datatype Device = Device(organizationId: string, deviceId: string, workspaceIds: set<string>, revoked: bool)
  datatype Usage = Usage(organizationId: string, workspaceId: Option<string>, usageKey: string, units: u64)

  /** The file. Everything below an organisation is kept under a key composed of both ids. */
  datatype TenantState = TenantState(
    version: nat,
    users: map<string, User>,
    organizations: map<string, Organization>,
    memberships: map<string, Membership>,
    workspaces: map<string, Workspace>,
    devices: map<string, Device>,
    usage: map<string, Usage>
  )

  datatype Context = Context(
    organizationId: string,
    actorId: string,
    deviceId: string,
    workspaceId: Option<string>,
    role: Role,
    scopes: set<string>
  )

  datatype Op =
    | UpsertUser(userId: string, displayName: string)
    | UpsertOrganization(org: string, name: string)
    | UpsertWorkspace(org: string, workspaceId: string, name: string)
    | SetMembership(org: string, userId: string, role: Role)
    | RevokeMembership(org: string, userId: string)
    | PairDevice(org: string, deviceId: string, workspaceIds: set<string>)
    | RevokeDevice(org: string, deviceId: string)
    | RemoveDeviceWorkspace(org: string, deviceId: string, workspaceId: string)
    | RecordUsage(org: string, workspace: Option<string>, usageKey: string, units: u64)
    | VerifyContext(grant: Grants.Grant, org: string, deviceId: string, workspace: Option<string>, required: Role)
    | ListUsage(org: string)

  datatype Answer =
    | Done
    | Removed(removed: bool)
    | Verified(context: Context)
    | Listed(records: seq<Usage>)

  // ------------------------------------------------------------------- what is valid

  function CheckMaybe(value: Option<string>): Option<AuthError> {
    if value.Some? then CheckId(value.value) else None
  }

  function Filed(filed: bool): Option<AuthError> {
    if filed then None else Some(InvalidState)
  }

  function CheckAll<V>(m: map<string, V>, check: (string, V) -> Option<AuthError>, keys: seq<string>): Option<AuthError>
    requires forall k | k in keys :: k in m
  {
    if keys == [] then None else First(check(keys[0], m[keys[0]]), CheckAll(m, check, keys[1..]))
  }

  /** The first complaint about a table, read in the order of its keys. */
  function CheckTable<V>(m: map<string, V>, check: (string, V) -> Option<AuthError>): Option<AuthError> {
    CheckAll(m, check, Sorted(m.Keys))
  }

  function CheckOrganization(key: string, r: Organization): Option<AuthError> {
    First(CheckId(r.organizationId), Filed(key == r.organizationId))
  }

  function CheckUser(key: string, r: User): Option<AuthError> {
    First(CheckActor(r.userId), Filed(key == r.userId))
  }

  function CheckMembership(key: string, r: Membership): Option<AuthError> {
    First(CheckId(r.organizationId), First(CheckActor(r.userId), Filed(key == TenantKey(r.organizationId, r.userId))))
  }

  function CheckWorkspace(key: string, r: Workspace): Option<AuthError> {
    First(CheckId(r.organizationId), First(CheckId(r.workspaceId), Filed(key == TenantKey(r.organizationId, r.workspaceId))))
  }

  function CheckDevice(key: string, r: Device): Option<AuthError> {
    First(CheckId(r.organizationId),
    First(CheckId(r.deviceId),
    First(Filed(key == TenantKey(r.organizationId, r.deviceId)), CheckIds(r.workspaceIds))))
  }

  function CheckUsage(key: string, r: Usage): Option<AuthError> {
    First(CheckId(r.organizationId),
    First(CheckMaybe(r.workspaceId),
    First(CheckId(r.usageKey), Filed(key == UsageKeyFor(r.organizationId, r.workspaceId, r.usageKey)))))
  }

  /** Why a file is refused when it is read, if it is. */
  function Fault(s: TenantState): Option<AuthError> {
    First(Filed(s.version == 1),
    First(CheckTable(s.organizations, CheckOrganization),
    First(CheckTable(s.users, CheckUser),
    First(CheckTable(s.memberships, CheckMembership),
    First(CheckTable(s.workspaces, CheckWorkspace),
    First(CheckTable(s.devices, CheckDevice), CheckTable(s.usage, CheckUsage)))))))
  }

  ghost predicate TablePasses<V>(m: map<string, V>, check: (string, V) -> Option<AuthError>) {
    forall k | k in m :: check(k, m[k]).None?
  }

  lemma {:induction false} AllPass<V>(m: map<string, V>, check: (string, V) -> Option<AuthError>, keys: seq<string>)
    requires forall k | k in keys :: k in m
    ensures CheckAll(m, check, keys).None? <==> forall k | k in keys :: check(k, m[k]).None?
  {
    if keys != [] {
      AllPass(m, check, keys[1..]);
      assert keys == [keys[0]] + keys[1..];
    }
  }

  lemma TablePassesExactly<V>(m: map<string, V>, check: (string, V) -> Option<AuthError>)
    ensures CheckTable(m, check).None? <==> TablePasses(m, check)
  {
    AllPass(m, check, Sorted(m.Keys));
  }

  /** Every record passes its own checks and is filed under its own key. */
  ghost predicate Passes(s: TenantState) {
    && s.version == 1
    && TablePasses(s.organizations, CheckOrganization)
    && TablePasses(s.users, CheckUser)
    && TablePasses(s.memberships, CheckMembership)
    && TablePasses(s.workspaces, CheckWorkspace)
    && TablePasses(s.devices, CheckDevice)
    && TablePasses(s.usage, CheckUsage)
  }

  lemma ReadableExactly(s: TenantState)
    ensures Fault(s).None? <==> Passes(s)
  {
    TablePassesExactly(s.organizations, CheckOrganization);
    TablePassesExactly(s.users, CheckUser);
    TablePassesExactly(s.memberships, CheckMembership);
    TablePassesExactly(s.workspaces, CheckWorkspace);
    TablePassesExactly(s.devices, CheckDevice);
    TablePassesExactly(s.usage, CheckUsage);
  }

  // ----------------------------------------------------------------------- the calls

  function Complaint(op: Op): Option<AuthError> {
    match op
    case UpsertUser(user, _) => CheckId(user)
    case UpsertOrganization(org, _) => CheckId(org)
    case UpsertWorkspace(org, workspace, _) => First(CheckId(workspace), CheckId(org))
    case SetMembership(org, user, _) => First(CheckId(org), CheckId(user))
    case RevokeMembership(org, user) => First(CheckId(org), CheckId(user))
    case PairDevice(org, device, workspaces) => First(CheckId(device), First(CheckId(org), CheckIds(workspaces)))
    case RevokeDevice(org, device) => First(CheckId(org), CheckId(device))
    case RemoveDeviceWorkspace(org, device, workspace) => First(CheckId(org), First(CheckId(device), CheckId(workspace)))
    case RecordUsage(org, workspace, key, _) => First(CheckId(org), First(CheckMaybe(workspace), CheckId(key)))
    case VerifyContext(grant, org, device, workspace, _) =>
      First(CheckId(org), First(CheckId(device), First(CheckMaybe(workspace),
        if grant.organizationId != org then Some(Unauthorized) else None)))
    case ListUsage(org) => CheckId(org)
  }

  function Early(op: Op): Option<Result<Answer, AuthError>> {
    match Complaint(op) case Some(e) => Some(Err(e)) case None => None
  }

  type Change = Result<(TenantState, Answer), AuthError>

  function UpsertWorkspaceIn(s: TenantState, org: string, workspace: string, name: string): Change {
    if org !in s.organizations then Err(Unauthorized)
    else Ok((s.(workspaces := s.workspaces[TenantKey(org, workspace) := Workspace(org, workspace, name)]), Done))
  }

  function SetMembershipIn(s: TenantState, org: string, user: string, role: Role): Change {
    if org !in s.organizations || user !in s.users then Err(Unauthorized)
    else Ok((s.(memberships := s.memberships[TenantKey(org, user) := Membership(org, user, role, false)]), Done))
  }

  function RevokeMembershipIn(s: TenantState, org: string, user: string): Change {
    var key := TenantKey(org, user);
    if key !in s.memberships then Ok((s, Done))
    else Ok((s.(memberships := s.memberships[key := s.memberships[key].(revoked := true)]), Done))
  }

  function PairDeviceIn(s: TenantState, org: string, device: string, workspaces: set<string>): Change {
    if org !in s.organizations then Err(Unauthorized)
    else if exists w :: w in workspaces && TenantKey(org, w) !in s.workspaces then Err(Unauthorized)
    else Ok((s.(devices := s.devices[TenantKey(org, device) := Device(org, device, workspaces, false)]), Done))
  }

  function RevokeDeviceIn(s: TenantState, org: string, device: string): Change {
    var key := TenantKey(org, device);
    if key !in s.devices then Ok((s, Done))
    else Ok((s.(devices := s.devices[key := s.devices[key].(revoked := true)]), Done))
  }

  function RemoveDeviceWorkspaceIn(s: TenantState, org: string, device: string, workspace: string): Change {
    var key := TenantKey(org, device);
    if key !in s.devices then Ok((s, Removed(false)))
    else
      var d := s.devices[key];
      Ok((s.(devices := s.devices[key := d.(workspaceIds := d.workspaceIds - {workspace})]),
          Removed(workspace in d.workspaceIds)))
  }

  function RecordUsageIn(s: TenantState, org: string, workspace: Option<string>, usageKey: string, units: u64): Change {
    if org !in s.organizations then Err(Unauthorized)
    else
      var key := UsageKeyFor(org, workspace, usageKey);
      var record := if key in s.usage then s.usage[key].(units := SaturatingAdd(s.usage[key].units, units))
                    else Usage(org, workspace, usageKey, units);
      Ok((s.(usage := s.usage[key := record]), Done))
  }

  function VerifyIn(s: TenantState, grant: Grants.Grant, org: string, device: string, workspace: Option<string>,
                    required: Role): Result<Context, AuthError>
  {
    var member := TenantKey(org, grant.actorId);
    var paired := TenantKey(org, device);
    if member !in s.memberships then Err(Unauthorized)
    else if s.memberships[member].revoked || s.memberships[member].role.Rank() < required.Rank() then Err(Unauthorized)
    else if paired !in s.devices || s.devices[paired].revoked then Err(Unauthorized)
    else if workspace.Some? && (|| TenantKey(org, workspace.value) !in s.workspaces
                                || workspace.value !in s.devices[paired].workspaceIds
                                || workspace.value !in grant.workspaceIds) then Err(Unauthorized)
    else Ok(Context(org, grant.actorId, device, workspace, s.memberships[member].role, grant.scopes))
  }

  /** The records of one organisation among these keys, in their order. */
  function UsageOf(usage: map<string, Usage>, org: string, keys: seq<string>): seq<Usage>
    requires forall k | k in keys :: k in usage
  {
    if keys == [] then []
    else (if usage[keys[0]].organizationId == org then [usage[keys[0]]] else []) + UsageOf(usage, org, keys[1..])
  }

  function ListIn(s: TenantState, org: string): seq<Usage> {
    UsageOf(s.usage, org, Sorted(s.usage.Keys))
  }

  function Apply(s: TenantState, op: Op): Change {
    match op
    case UpsertUser(user, name) => Ok((s.(users := s.users[user := User(user, name)]), Done))
    case UpsertOrganization(org, name) => Ok((s.(organizations := s.organizations[org := Organization(org, name)]), Done))
    case UpsertWorkspace(org, workspace, name) => UpsertWorkspaceIn(s, org, workspace, name)
    case SetMembership(org, user, role) => SetMembershipIn(s, org, user, role)
    case RevokeMembership(org, user) => RevokeMembershipIn(s, org, user)
    case PairDevice(org, device, workspaces) => PairDeviceIn(s, org, device, workspaces)
    case RevokeDevice(org, device) => RevokeDeviceIn(s, org, device)
    case RemoveDeviceWorkspace(org, device, workspace) => RemoveDeviceWorkspaceIn(s, org, device, workspace)
    case RecordUsage(org, workspace, key, units) => RecordUsageIn(s, org, workspace, key, units)
    case VerifyContext(grant, org, device, workspace, required) =>
      (match VerifyIn(s, grant, org, device, workspace, required)
       case Err(e) => Err(e)
       case Ok(c) => Ok((s, Verified(c))))
    case ListUsage(org) => Ok((s, Listed(ListIn(s, org))))
  }

  function Empty(): TenantState {
    TenantState(1, map[], map[], map[], map[], map[], map[])
  }

  function TenantSpec(): Spec<TenantState, Op, Answer> {
    Spec(Early, Fault, Apply, (_: string) => Empty())
  }

  function Take(s: TenantState, op: Op): (TenantState, Result<Answer, AuthError>) {
    Atomic(TenantSpec(), s, op)
  }

  function Reached(s: TenantState, ops: seq<Op>): TenantState {
    After(TenantSpec(), s, ops)
  }

  lemma Taken(s: TenantState, op: Op)
    ensures Take(s, op)
         == (if Complaint(op).Some? then (s, Err(Complaint(op).value))
             else if Fault(s).Some? then (s, Err(Fault(s).value))
             else if Apply(s, op).Err? then (s, Err(Apply(s, op).error))
             else (Apply(s, op).value.0, Ok(Apply(s, op).value.1)))
  {}

  // ------------------------------------------------------------- every reachable state

  /** What a record refers to is there. */
  ghost predicate Refers(s: TenantState) {
    && (forall k | k in s.memberships ::
          s.memberships[k].organizationId in s.organizations && s.memberships[k].userId in s.users)
    && (forall k | k in s.workspaces :: s.workspaces[k].organizationId in s.organizations)
    && (forall k | k in s.usage :: s.usage[k].organizationId in s.organizations)
    && (forall k | k in s.devices ::
          && s.devices[k].organizationId in s.organizations
          && forall w | w in s.devices[k].workspaceIds :: TenantKey(s.devices[k].organizationId, w) in s.workspaces)
  }

  ghost predicate Good(s: TenantState) {
    Passes(s) && Refers(s)
  }

  lemma TablePassesUpdate<V>(m: map<string, V>, check: (string, V) -> Option<AuthError>, k: string, v: V)
    requires TablePasses(m, check) && check(k, v).None?
    ensures TablePasses(m[k := v], check)
  {}

  lemma UpsertsKeep(s: TenantState, op: Op)
    requires Good(s) && Complaint(op).None? && Apply(s, op).Ok?
    requires op.UpsertUser? || op.UpsertOrganization? || op.UpsertWorkspace? || op.SetMembership?
    ensures Good(Apply(s, op).value.0)
  {
    match op
    case UpsertUser(user, name) => TablePassesUpdate(s.users, CheckUser, user, User(user, name));
    case UpsertOrganization(org, name) =>
      TablePassesUpdate(s.organizations, CheckOrganization, org, Organization(org, name));
    case UpsertWorkspace(org, w, name) =>
      TablePassesUpdate(s.workspaces, CheckWorkspace, TenantKey(org, w), Workspace(org, w, name));
    case SetMembership(org, user, role) =>
      TablePassesUpdate(s.memberships, CheckMembership, TenantKey(org, user), Membership(org, user, role, false));
  }

  lemma DeviceChangeKeeps(s: TenantState, key: string, d: Device)
    requires Good(s) && CheckDevice(key, d).None? && d.organizationId in s.organizations
    requires forall w | w in d.workspaceIds :: TenantKey(d.organizationId, w) in s.workspaces
    ensures Good(s.(devices := s.devices[key := d]))
  {
    TablePassesUpdate(s.devices, CheckDevice, key, d);
  }

  lemma DevicesKeep(s: TenantState, op: Op)
    requires Good(s) && Complaint(op).None? && Apply(s, op).Ok?
    requires op.PairDevice? || op.RevokeDevice? || op.RemoveDeviceWorkspace?
    ensures Good(Apply(s, op).value.0)
  {
    var key := TenantKey(op.org, op.deviceId);
    if op.PairDevice? {
      DeviceChangeKeeps(s, key, Device(op.org, op.deviceId, op.workspaceIds, false));
    } else if key in s.devices {
      var d := s.devices[key];
      assert CheckDevice(key, d).None?;
      if op.RevokeDevice? {
        DeviceChangeKeeps(s, key, d.(revoked := true));
      } else {
        DeviceChangeKeeps(s, key, d.(workspaceIds := d.workspaceIds - {op.workspaceId}));
      }
    }
  }

  lemma RevokingKeeps(s: TenantState, org: string, user: string)
    requires Good(s)
    ensures Good(RevokeMembershipIn(s, org, user).value.0)
  {
    var key := TenantKey(org, user);
    if key in s.memberships {
      assert CheckMembership(key, s.memberships[key]).None?;
      TablePassesUpdate(s.memberships, CheckMembership, key, s.memberships[key].(revoked := true));
    }
  }

  lemma RecordingKeeps(s: TenantState, org: string, workspace: Option<string>, usageKey: string, units: u64)
    requires Good(s) && CheckId(org).None? && CheckMaybe(workspace).None? && CheckId(usageKey).None?
    requires org in s.organizations
    ensures Good(RecordUsageIn(s, org, workspace, usageKey, units).value.0)
  {
    var key := UsageKeyFor(org, workspace, usageKey);
    var n := RecordUsageIn(s, org, workspace, usageKey, units).value.0;
    if key in s.usage {
      assert CheckUsage(key, s.usage[key]).None?;
    }
    assert CheckUsage(key, n.usage[key]).None?;
    TablePassesUpdate(s.usage, CheckUsage, key, n.usage[key]);
  }

  lemma OthersKeep(s: TenantState, op: Op)
    requires Good(s) && Complaint(op).None? && Apply(s, op).Ok?
    requires op.RevokeMembership? || op.RecordUsage? || op.VerifyContext? || op.ListUsage?
    ensures Good(Apply(s, op).value.0)
  {
    match op
    case RevokeMembership(org, user) => RevokingKeeps(s, org, user);
    case RecordUsage(org, workspace, key, units) => RecordingKeeps(s, org, workspace, key, units);
    case _ =>
  }

  lemma StepKeepsGood(s: TenantState, op: Op)
    requires Good(s)
    ensures Good(Take(s, op).0)
  {
    Taken(s, op);
    if Complaint(op).None? && Apply(s, op).Ok? {
      match op
      case UpsertUser(_, _) => UpsertsKeep(s, op);
      case UpsertOrganization(_, _) => UpsertsKeep(s, op);
      case UpsertWorkspace(_, _, _) => UpsertsKeep(s, op);
      case SetMembership(_, _, _) => UpsertsKeep(s, op);
      case PairDevice(_, _, _) => DevicesKeep(s, op);
      case RevokeDevice(_, _) => DevicesKeep(s, op);
      case RemoveDeviceWorkspace(_, _, _) => DevicesKeep(s, op);
      case _ => OthersKeep(s, op);
    }
  }

  /** Whatever is called, the file can be read back, and nothing in it refers to a record that is not there. */
  lemma {:induction false} AlwaysGood(ops: seq<Op>)
    ensures Good(Reached(Empty(), ops)) && Fault(Reached(Empty(), ops)).None?
  {
    if ops == [] {
    } else {
      var n := |ops| - 1;
      AlwaysGood(ops[..n]);
      StepKeepsGood(Reached(Empty(), ops[..n]), ops[n]);
    }
    ReadableExactly(Reached(Empty(), ops));
  }

  // ------------------------------------------------- what one organisation can see of others

  predicate Same<V(==)>(m: map<string, V>, n: map<string, V>, k: string) {
    (k in m <==> k in n) && (k in m ==> m[k] == n[k])
  }

  /** The two states agree on everything that is organisation `a`'s, and on the users. */
  ghost predicate Alike(a: string, s: TenantState, n: TenantState) {
    && s.users == n.users
    && Same(s.organizations, n.organizations, a)
    && (forall x :: Same(s.memberships, n.memberships, TenantKey(a, x)))
    && (forall x :: Same(s.workspaces, n.workspaces, TenantKey(a, x)))
    && (forall x :: Same(s.devices, n.devices, TenantKey(a, x)))
    && (forall w, k :: Same(s.usage, n.usage, UsageKeyFor(a, w, k)))
  }

  /** The call is made for `a`, or is about users, who belong to no organisation. */
  predicate Concerns(op: Op, a: string) {
    op.UpsertUser? || op.org == a
  }

  lemma KeysApart(a: string, b: string, y: string)
    requires a != b
    ensures forall x :: TenantKey(a, x) != TenantKey(b, y)
  {
    forall x
      ensures TenantKey(a, x) != TenantKey(b, y)
    {
      if TenantKey(a, x) == TenantKey(b, y) {
        TenantKeyInjective(a, x, b, y);
      }
    }
  }

  lemma UsageKeysApart(a: string, b: string, v: Option<string>, y: string)
    requires a != b
    ensures forall w, k :: UsageKeyFor(a, w, k) != UsageKeyFor(b, v, y)
  {
    forall w, k
      ensures UsageKeyFor(a, w, k) != UsageKeyFor(b, v, y)
    {
      if UsageKeyFor(a, w, k) == UsageKeyFor(b, v, y) {
        UsageKeyInjective(a, w, k, b, v, y);
      }
    }
  }

  lemma MembershipApart(a: string, s: TenantState, b: string, y: string, v: Membership)
    requires a != b
    ensures Alike(a, s, s.(memberships := s.memberships[TenantKey(b, y) := v]))
  {
    KeysApart(a, b, y);
  }

  lemma WorkspaceApart(a: string, s: TenantState, b: string, y: string, v: Workspace)
    requires a != b
    ensures Alike(a, s, s.(workspaces := s.workspaces[TenantKey(b, y) := v]))
  {
    KeysApart(a, b, y);
  }

  lemma DeviceApart(a: string, s: TenantState, b: string, y: string, v: Device)
    requires a != b
    ensures Alike(a, s, s.(devices := s.devices[TenantKey(b, y) := v]))
  {
    KeysApart(a, b, y);
  }

  lemma UsageApart(a: string, s: TenantState, b: string, w: Option<string>, y: string, v: Usage)
    requires a != b
    ensures Alike(a, s, s.(usage := s.usage[UsageKeyFor(b, w, y) := v]))
  {
    UsageKeysApart(a, b, w, y);
  }

  lemma StrangersApply(a: string, s: TenantState, op: Op)
    requires !Concerns(op, a) && Apply(s, op).Ok?
    ensures Alike(a, s, Apply(s, op).value.0)
  {
    var n := Apply(s, op).value.0;
    if n == s {
    } else if op.PairDevice? || op.RevokeDevice? || op.RemoveDeviceWorkspace? {
      DeviceApart(a, s, op.org, op.deviceId, n.devices[TenantKey(op.org, op.deviceId)]);
    } else {
      match op
      case UpsertWorkspace(b, y, name) => WorkspaceApart(a, s, b, y, Workspace(b, y, name));
      case SetMembership(b, y, role) => MembershipApart(a, s, b, y, Membership(b, y, role, false));
      case RevokeMembership(b, y) => MembershipApart(a, s, b, y, n.memberships[TenantKey(b, y)]);
      case RecordUsage(b, w, y, _) => UsageApart(a, s, b, w, y, n.usage[UsageKeyFor(b, w, y)]);
      case _ =>
    }
  }

  lemma TakesOrLeaves(s: TenantState, op: Op)
    ensures Take(s, op).0 == s || (Take(s, op).1.Ok? && Apply(s, op).Ok? && Take(s, op).0 == Apply(s, op).value.0)
  {
    Taken(s, op);
  }

  /** A call that does not concern `a` leaves what is `a`'s alone. */
  lemma StrangersKeepAlike(a: string, s: TenantState, op: Op)
    requires !Concerns(op, a)
    ensures Alike(a, s, Take(s, op).0)
  {
    TakesOrLeaves(s, op);
    if Take(s, op).0 != s {
      StrangersApply(a, s, op);
    }
  }

  function KeysOf(usage: map<string, Usage>, org: string, keys: set<string>): set<string>
    requires keys <= usage.Keys
  {
    set k | k in keys && usage[k].organizationId == org
  }

  function RecordsAt(usage: map<string, Usage>, keys: seq<string>): seq<Usage>
    requires forall k | k in keys :: k in usage
  {
    if keys == [] then [] else [usage[keys[0]]] + RecordsAt(usage, keys[1..])
  }

  /** A listing is the organisation's own records in the order of their keys. */
  lemma {:induction false} ListingExactly(usage: map<string, Usage>, org: string, keys: set<string>)
    requires keys <= usage.Keys
    ensures UsageOf(usage, org, Sorted(keys)) == RecordsAt(usage, Sorted(KeysOf(usage, org, keys)))
    decreases |keys|
  {
    if keys == {} {
      assert KeysOf(usage, org, keys) == {};
    } else {
      var m := Least(keys);
      var rest := keys - {m};
      assert Sorted(keys)[1..] == Sorted(rest);
      ListingExactly(usage, org, rest);
      if usage[m].organizationId == org {
        var own := KeysOf(usage, org, keys);
        assert m in own && IsLeast(m, own);
        LeastUnique(m, Least(own), own);
        assert own - {m} == KeysOf(usage, org, rest);
        assert Sorted(own)[1..] == Sorted(own - {m});
      } else {
        assert KeysOf(usage, org, keys) == KeysOf(usage, org, rest);
      }
    }
  }

  lemma {:induction false} RecordsAgree(m: map<string, Usage>, n: map<string, Usage>, keys: seq<string>)
    requires forall k | k in keys :: k in m && k in n && m[k] == n[k]
    ensures RecordsAt(m, keys) == RecordsAt(n, keys)
  {
    if keys != [] {
      RecordsAgree(m, n, keys[1..]);
    }
  }

  lemma OwnKeysCarry(a: string, s: TenantState, n: TenantState)
    requires Passes(s) && Alike(a, s, n)
    ensures forall k | k in KeysOf(s.usage, a, s.usage.Keys) ::
      k in KeysOf(n.usage, a, n.usage.Keys) && n.usage[k] == s.usage[k]
  {
    forall k | k in KeysOf(s.usage, a, s.usage.Keys)
      ensures k in KeysOf(n.usage, a, n.usage.Keys) && n.usage[k] == s.usage[k]
    {
      assert CheckUsage(k, s.usage[k]).None?;
      assert Same(s.usage, n.usage, UsageKeyFor(a, s.usage[k].workspaceId, s.usage[k].usageKey));
    }
  }

  lemma OwnKeysAgree(a: string, s: TenantState, n: TenantState)
    requires Passes(s) && Passes(n) && Alike(a, s, n)
    ensures KeysOf(s.usage, a, s.usage.Keys) == KeysOf(n.usage, a, n.usage.Keys)
    ensures forall k | k in KeysOf(s.usage, a, s.usage.Keys) :: s.usage[k] == n.usage[k]
  {
    OwnKeysCarry(a, s, n);
    AlikeBothWays(a, s, n);
    OwnKeysCarry(a, n, s);
  }

  lemma AlikeBothWays(a: string, s: TenantState, n: TenantState)
    requires Alike(a, s, n)
    ensures Alike(a, n, s)
  {}

  lemma ListingsAgree(a: string, s: TenantState, n: TenantState)
    requires Passes(s) && Passes(n) && Alike(a, s, n)
    ensures ListIn(s, a) == ListIn(n, a)
  {
    var own := KeysOf(s.usage, a, s.usage.Keys);
    OwnKeysAgree(a, s, n);
    assert forall k | k in own :: k in s.usage && k in n.usage && s.usage[k] == n.usage[k];
    ListingsFollowKeys(a, s.usage, n.usage, own);
  }

  lemma ListingsFollowKeys(a: string, m: map<string, Usage>, n: map<string, Usage>, own: set<string>)
    requires own == KeysOf(m, a, m.Keys) && own == KeysOf(n, a, n.Keys)
    requires forall k | k in own :: k in m && k in n && m[k] == n[k]
    ensures UsageOf(m, a, Sorted(m.Keys)) == UsageOf(n, a, Sorted(n.Keys))
  {
    ListingExactly(m, a, m.Keys);
    ListingExactly(n, a, n.Keys);
    RecordsAgree(m, n, Sorted(own));
  }

  ghost predicate SameAnswer(a: string, x: Change, y: Change) {
    && x.Ok? == y.Ok?
    && (x.Err? ==> x.error == y.error)
    && (x.Ok? ==> x.value.1 == y.value.1 && Alike(a, x.value.0, y.value.0))
  }

  lemma UpsertsAlike(a: string, s: TenantState, n: TenantState, op: Op)
    requires Alike(a, s, n) && Concerns(op, a)
    requires op.UpsertUser? || op.UpsertOrganization? || op.UpsertWorkspace? || op.RecordUsage?
    ensures SameAnswer(a, Apply(s, op), Apply(n, op))
  {
    if op.RecordUsage? {
      assert Same(s.usage, n.usage, UsageKeyFor(a, op.workspace, op.usageKey));
    }
  }

  lemma MembersAlike(a: string, s: TenantState, n: TenantState, op: Op)
    requires Alike(a, s, n) && Concerns(op, a)
    requires op.SetMembership? || op.RevokeMembership?
    ensures SameAnswer(a, Apply(s, op), Apply(n, op))
  {
    assert Same(s.memberships, n.memberships, TenantKey(a, op.userId));
  }

  lemma DevicesAlike(a: string, s: TenantState, n: TenantState, op: Op)
    requires Alike(a, s, n) && Concerns(op, a)
    requires op.PairDevice? || op.RevokeDevice? || op.RemoveDeviceWorkspace?
    ensures SameAnswer(a, Apply(s, op), Apply(n, op))
  {
    assert Same(s.devices, n.devices, TenantKey(a, op.deviceId));
    if op.PairDevice? {
      forall w | w in op.workspaceIds
        ensures TenantKey(a, w) in s.workspaces <==> TenantKey(a, w) in n.workspaces
      {
        assert Same(s.workspaces, n.workspaces, TenantKey(a, w));
      }
    }
  }

  lemma QueriesAlike(a: string, s: TenantState, n: TenantState, op: Op)
    requires Alike(a, s, n) && Concerns(op, a) && Passes(s) && Passes(n)
    requires op.VerifyContext? || op.ListUsage?
    ensures SameAnswer(a, Apply(s, op), Apply(n, op))
  {
    if op.ListUsage? {
      ListingsAgree(a, s, n);
    } else {
      assert Same(s.memberships, n.memberships, TenantKey(a, op.grant.actorId));
      assert Same(s.devices, n.devices, TenantKey(a, op.deviceId));
      assert op.workspace.Some? ==> Same(s.workspaces, n.workspaces, TenantKey(a, op.workspace.value));
    }
  }

  /** A call that concerns `a` does the same, and answers the same, in states that agree on what is `a`'s. */
  lemma OwnCallsAlike(a: string, s: TenantState, n: TenantState, op: Op)
    requires Good(s) && Good(n) && Alike(a, s, n) && Concerns(op, a)
    ensures Take(s, op).1 == Take(n, op).1 && Alike(a, Take(s, op).0, Take(n, op).0)
  {
    Taken(s, op);
    Taken(n, op);
    ReadableExactly(s);
    ReadableExactly(n);
    match op
    case SetMembership(_, _, _) => MembersAlike(a, s, n, op);
    case RevokeMembership(_, _) => MembersAlike(a, s, n, op);
    case PairDevice(_, _, _) => DevicesAlike(a, s, n, op);
    case RevokeDevice(_, _) => DevicesAlike(a, s, n, op);
    case RemoveDeviceWorkspace(_, _, _) => DevicesAlike(a, s, n, op);
    case VerifyContext(_, _, _, _, _) => QueriesAlike(a, s, n, op);
    case ListUsage(_) => QueriesAlike(a, s, n, op);
    case _ => UpsertsAlike(a, s, n, op);
  }

  /** The calls that concern `a`. */
  function Purge(ops: seq<Op>, a: string): seq<Op> {
    if ops == [] then []
    else
      var n := |ops| - 1;
      Purge(ops[..n], a) + if Concerns(ops[n], a) then [ops[n]] else []
  }

  lemma AlikeTransitive(a: string, s: TenantState, n: TenantState, m: TenantState)
    requires Alike(a, s, n) && Alike(a, n, m)
    ensures Alike(a, s, m)
  {
    forall x
      ensures Same(s.memberships, m.memberships, TenantKey(a, x))
      ensures Same(s.workspaces, m.workspaces, TenantKey(a, x))
      ensures Same(s.devices, m.devices, TenantKey(a, x))
    {
      assert Same(s.memberships, n.memberships, TenantKey(a, x)) && Same(n.memberships, m.memberships, TenantKey(a, x));
      assert Same(s.workspaces, n.workspaces, TenantKey(a, x)) && Same(n.workspaces, m.workspaces, TenantKey(a, x));
      assert Same(s.devices, n.devices, TenantKey(a, x)) && Same(n.devices, m.devices, TenantKey(a, x));
    }
    forall w, k
      ensures Same(s.usage, m.usage, UsageKeyFor(a, w, k))
    {
      assert Same(s.usage, n.usage, UsageKeyFor(a, w, k)) && Same(n.usage, m.usage, UsageKeyFor(a, w, k));
    }
  }

  lemma {:induction false} PurgedAlike(ops: seq<Op>, a: string)
    ensures Alike(a, Reached(Empty(), ops), Reached(Empty(), Purge(ops, a)))
  {
    if ops != [] {
      var n := |ops| - 1;
      var s, p := Reached(Empty(), ops[..n]), Reached(Empty(), Purge(ops[..n], a));
      PurgedAlike(ops[..n], a);
      if Concerns(ops[n], a) {
        AlwaysGood(ops[..n]);
        AlwaysGood(Purge(ops[..n], a));
        OwnCallsAlike(a, s, p, ops[n]);
        AfterStep(TenantSpec(), Empty(), Purge(ops[..n], a), ops[n]);
      } else {
        StrangersKeepAlike(a, s, ops[n]);
        assert Alike(a, Take(s, ops[n]).0, s);
        AlikeTransitive(a, Take(s, ops[n]).0, s, p);
        assert Purge(ops, a) == Purge(ops[..n], a);
      }
    }
  }

  /**
   * Tenants do not interfere: whatever was called before, every call made for an organisation is answered as
   * if the calls made for all other organisations had not been. Colons and digits in ids do not help.
   */
  lemma NonInterference(ops: seq<Op>, a: string, op: Op)
    requires Concerns(op, a)
    ensures Take(Reached(Empty(), ops), op).1 == Take(Reached(Empty(), Purge(ops, a)), op).1
  {
    PurgedAlike(ops, a);
    AlwaysGood(ops);
    AlwaysGood(Purge(ops, a));
    OwnCallsAlike(a, Reached(Empty(), ops), Reached(Empty(), Purge(ops, a)), op);
  }

  // ---------------------------------------------------------- what each call comes to

  /** Which role will do where another is required: an operator may act as a viewer, and an admin as either. */
  predicate Carries(held: Role, required: Role) {
    match required
    case Viewer => true
    case Operator => held in {Operator, Admin}
    case Admin => held == Admin
  }

  /** Who may act where, over the state: a member whose role will do, on an active device, in a workspace all three share. */
  ghost predicate MayAct(s: TenantState, grant: Grants.Grant, org: string, device: string, workspace: Option<string>,
                         required: Role)
  {
    var member, paired := TenantKey(org, grant.actorId), TenantKey(org, device);
    && grant.organizationId == org
    && member in s.memberships && !s.memberships[member].revoked
    && Carries(s.memberships[member].role, required)
    && paired in s.devices && !s.devices[paired].revoked
    && (workspace.Some? ==>
          && TenantKey(org, workspace.value) in s.workspaces
          && workspace.value in s.devices[paired].workspaceIds
          && workspace.value in grant.workspaceIds)
  }

  lemma VerifyInExactly(s: TenantState, grant: Grants.Grant, org: string, device: string, workspace: Option<string>,
                        required: Role)
    requires grant.organizationId == org
    ensures var r := VerifyIn(s, grant, org, device, workspace, required);
            && (r.Ok? <==> MayAct(s, grant, org, device, workspace, required))
            && (r.Ok? ==> r.value == Context(org, grant.actorId, device, workspace,
                                             s.memberships[TenantKey(org, grant.actorId)].role, grant.scopes))
            && (r.Err? ==> r.error == Unauthorized)
  {}

  lemma GoodIsReadable(s: TenantState)
    requires Good(s)
    ensures Fault(s).None?
  {
    ReadableExactly(s);
  }

  ghost predicate MaybeProper(id: Option<string>) {
    id.Some? ==> ProperId(id.value)
  }

  /** Every id that the call names is one. */
  ghost predicate ProperIds(op: Op) {
    match op
    case UpsertUser(user, _) => ProperId(user)
    case UpsertOrganization(org, _) => ProperId(org)
    case UpsertWorkspace(org, workspace, _) => ProperId(org) && ProperId(workspace)
    case SetMembership(org, user, _) => ProperId(org) && ProperId(user)
    case RevokeMembership(org, user) => ProperId(org) && ProperId(user)
    case PairDevice(org, device, workspaces) =>
      ProperId(org) && ProperId(device) && forall w | w in workspaces :: ProperId(w)
    case RevokeDevice(org, device) => ProperId(org) && ProperId(device)
    case RemoveDeviceWorkspace(org, device, workspace) => ProperId(org) && ProperId(device) && ProperId(workspace)
    case RecordUsage(org, workspace, key, _) => ProperId(org) && MaybeProper(workspace) && ProperId(key)
    case VerifyContext(_, org, device, workspace, _) => ProperId(org) && ProperId(device) && MaybeProper(workspace)
    case ListUsage(org) => ProperId(org)
  }

  // A file that can be read, told record by record.

  predicate FiledUser(key: string, r: User) {
    ValidId(r.userId) && key == r.userId
  }

  predicate FiledOrganization(key: string, r: Organization) {
    ValidId(r.organizationId) && key == r.organizationId
  }

  predicate FiledMembership(key: string, r: Membership) {
    ValidId(r.organizationId) && ValidId(r.userId) && key == TenantKey(r.organizationId, r.userId)
  }

  predicate FiledWorkspace(key: string, r: Workspace) {
    ValidId(r.organizationId) && ValidId(r.workspaceId) && key == TenantKey(r.organizationId, r.workspaceId)
  }

  predicate FiledDevice(key: string, r: Device) {
    && ValidId(r.organizationId) && ValidId(r.deviceId) && (forall w | w in r.workspaceIds :: ValidId(w))
    && key == TenantKey(r.organizationId, r.deviceId)
  }

  predicate FiledUsage(key: string, r: Usage) {
    && ValidId(r.organizationId) && ValidId(r.usageKey) && (r.workspaceId.Some? ==> ValidId(r.workspaceId.value))
    && key == UsageKeyFor(r.organizationId, r.workspaceId, r.usageKey)
  }

  /** Every record of a file of version 1 has valid ids and stands under its own key. */
  ghost predicate ProperlyFiled(s: TenantState) {
    && s.version == 1
    && (forall k | k in s.users :: FiledUser(k, s.users[k]))
    && (forall k | k in s.organizations :: FiledOrganization(k, s.organizations[k]))
    && (forall k | k in s.memberships :: FiledMembership(k, s.memberships[k]))
    && (forall k | k in s.workspaces :: FiledWorkspace(k, s.workspaces[k]))
    && (forall k | k in s.devices :: FiledDevice(k, s.devices[k]))
    && (forall k | k in s.usage :: FiledUsage(k, s.usage[k]))
  }

  lemma UsersFiled(m: map<string, User>)
    ensures TablePasses(m, CheckUser) <==> forall k | k in m :: FiledUser(k, m[k])
  {}

  lemma OrganizationsFiled(m: map<string, Organization>)
    ensures TablePasses(m, CheckOrganization) <==> forall k | k in m :: FiledOrganization(k, m[k])
  {}

  lemma MembershipsFiled(m: map<string, Membership>)
    ensures TablePasses(m, CheckMembership) <==> forall k | k in m :: FiledMembership(k, m[k])
  {}

  lemma WorkspacesFiled(m: map<string, Workspace>)
    ensures TablePasses(m, CheckWorkspace) <==> forall k | k in m :: FiledWorkspace(k, m[k])
  {}

  lemma DevicesFiled(m: map<string, Device>)
    ensures TablePasses(m, CheckDevice) <==> forall k | k in m :: FiledDevice(k, m[k])
  {}

  lemma UsagesFiled(m: map<string, Usage>)
    ensures TablePasses(m, CheckUsage) <==> forall k | k in m :: FiledUsage(k, m[k])
  {}

  /** Which files can be read. */
  lemma FileReadsExactly(s: TenantState)
    ensures Fault(s).None? <==> ProperlyFiled(s)
  {
    ReadableExactly(s);
    UsersFiled(s.users);
    OrganizationsFiled(s.organizations);
    MembershipsFiled(s.memberships);
    WorkspacesFiled(s.workspaces);
    DevicesFiled(s.devices);
    UsagesFiled(s.usage);
  }

  /** What the call builds on is there. */
  ghost predicate Grounded(s: TenantState, op: Op) {
    match op
    case UpsertWorkspace(org, _, _) => org in s.organizations
    case SetMembership(org, user, _) => org in s.organizations && user in s.users
    case PairDevice(org, _, workspaces) => org in s.organizations && forall w | w in workspaces :: TenantKey(org, w) in s.workspaces
    case RecordUsage(org, _, _, _) => org in s.organizations
    case _ => true
  }

  lemma MaybeChecked(id: Option<string>)
    ensures CheckMaybe(id) == if MaybeProper(id) then None else Some(InvalidTenant)
  {
    if id.Some? {
      ValidIdExactly(id.value);
    }
  }

  lemma IdChecked(id: string)
    ensures CheckId(id) == if ProperId(id) then None else Some(InvalidTenant)
  {
    ValidIdExactly(id);
  }

  lemma ComplaintsExactly(op: Op)
    ensures Complaint(op) == if !ProperIds(op) then Some(InvalidTenant)
                             else if op.VerifyContext? && op.grant.organizationId != op.org then Some(Unauthorized)
                             else None
  {
    match op
    case UpsertUser(user, _) => IdChecked(user);
    case UpsertOrganization(org, _) => IdChecked(org);
    case UpsertWorkspace(org, workspace, _) => IdChecked(org); IdChecked(workspace);
    case SetMembership(org, user, _) => IdChecked(org); IdChecked(user);
    case RevokeMembership(org, user) => IdChecked(org); IdChecked(user);
    case PairDevice(org, device, workspaces) => IdChecked(org); IdChecked(device); Grants.ValidIdsExactly(workspaces);
    case RevokeDevice(org, device) => IdChecked(org); IdChecked(device);
    case RemoveDeviceWorkspace(org, device, workspace) => IdChecked(org); IdChecked(device); IdChecked(workspace);
    case RecordUsage(org, workspace, key, _) => IdChecked(org); MaybeChecked(workspace); IdChecked(key);
    case VerifyContext(_, org, device, workspace, _) => IdChecked(org); IdChecked(device); MaybeChecked(workspace);
    case ListUsage(org) => IdChecked(org);
  }

  /** Which calls are refused: those that name what is no id, or build on what is not there; and they change nothing. */
  lemma RefusedExactly(s: TenantState, op: Op)
    requires Fault(s).None? && !op.VerifyContext?
    ensures var (n, r) := Take(s, op);
            && (r.Ok? <==> ProperIds(op) && Grounded(s, op))
            && (r.Err? ==> n == s && r.error == if ProperIds(op) then Unauthorized else InvalidTenant)
  {
    Taken(s, op);
    ComplaintsExactly(op);
  }

  /** The table holds this record under the key, and for the rest is as it was. */
  predicate Refiled<V(==)>(m: map<string, V>, n: map<string, V>, key: string, record: V) {
    key in n && n[key] == record && n - {key} == m - {key}
  }

  lemma UpdateRefiles<V>(m: map<string, V>, key: string, record: V)
    ensures Refiled(m, m[key := record], key, record)
  {}

  /** What is filed of a user, an organisation and a workspace is what was last said of it, and nothing else moves. */
  lemma UpsertsExactly(s: TenantState, op: Op)
    requires Fault(s).None? && (op.UpsertUser? || op.UpsertOrganization? || op.UpsertWorkspace?) && Take(s, op).1.Ok?
    ensures var n := Take(s, op).0;
            && (op.UpsertUser? ==>
                 Refiled(s.users, n.users, op.userId, User(op.userId, op.displayName)) && n == s.(users := n.users))
            && (op.UpsertOrganization? ==>
                 && Refiled(s.organizations, n.organizations, op.org, Organization(op.org, op.name))
                 && n == s.(organizations := n.organizations))
            && (op.UpsertWorkspace? ==>
                 && Refiled(s.workspaces, n.workspaces, TenantKey(op.org, op.workspaceId),
                            Workspace(op.org, op.workspaceId, op.name))
                 && n == s.(workspaces := n.workspaces))
  {
    Taken(s, op);
    match op
    case UpsertUser(user, name) => UpdateRefiles(s.users, user, User(user, name));
    case UpsertOrganization(org, name) => UpdateRefiles(s.organizations, org, Organization(org, name));
    case UpsertWorkspace(org, w, name) => UpdateRefiles(s.workspaces, TenantKey(org, w), Workspace(org, w, name));
  }

  lemma VerifiesExactly(s: TenantState, op: Op)
    requires op.VerifyContext? && Good(s)
    requires ValidId(op.org) && ValidId(op.deviceId) && (op.workspace.Some? ==> ValidId(op.workspace.value))
    ensures var (n, r) := Take(s, op);
            && n == s
            && (r.Ok? <==> MayAct(s, op.grant, op.org, op.deviceId, op.workspace, op.required))
            && (r.Ok? ==> r.value == Verified(Context(op.org, op.grant.actorId, op.deviceId, op.workspace,
                                                      s.memberships[TenantKey(op.org, op.grant.actorId)].role,
                                                      op.grant.scopes)))
            && (r.Err? ==> r.error == Unauthorized)
  {
    Taken(s, op);
    GoodIsReadable(s);
    if op.grant.organizationId == op.org {
      VerifyInExactly(s, op.grant, op.org, op.deviceId, op.workspace, op.required);
    }
  }

  /** On a sound state a call without complaint does what its change does. */
  lemma TakesEffect(s: TenantState, op: Op)
    requires Fault(s).None? && Complaint(op).None? && Apply(s, op).Ok?
    ensures Take(s, op) == (Apply(s, op).value.0, Ok(Apply(s, op).value.1))
  {
    Taken(s, op);
  }

  lemma ReachedTwo(s: TenantState, a: Op, b: Op)
    ensures Reached(s, [a, b]) == Take(Take(s, a).0, b).0
  {
    AfterStep(TenantSpec(), s, [], a);
    AfterStep(TenantSpec(), s, [a], b);
    assert [] + [a] == [a] && [a] + [b] == [a, b];
  }

  lemma Joins(s: TenantState, org: string, user: string, role: Role)
    requires ValidId(org) && ValidId(user) && org in s.organizations && user in s.users
    ensures var op := SetMembership(org, user, role);
            Complaint(op).None? && Apply(s, op)
            == Ok((s.(memberships := s.memberships[TenantKey(org, user) := Membership(org, user, role, false)]), Done))
  {}

  lemma Pairs(s: TenantState, org: string, device: string, workspace: string)
    requires ValidId(org) && ValidId(device) && ValidId(workspace)
    requires org in s.organizations && TenantKey(org, workspace) in s.workspaces
    ensures var op := PairDevice(org, device, {workspace});
            Complaint(op).None? && Apply(s, op)
            == Ok((s.(devices := s.devices[TenantKey(org, device) := Device(org, device, {workspace}, false)]), Done))
  {
    assert AllValidIds({workspace});
  }

  lemma MembershipTakenBack(s: TenantState, org: string, user: string)
    requires ValidId(org) && ValidId(user) && TenantKey(org, user) in s.memberships
    ensures var op := RevokeMembership(org, user);
            && Complaint(op).None? && Apply(s, op).Ok?
            && TenantKey(org, user) in Apply(s, op).value.0.memberships
            && Apply(s, op).value.0.memberships[TenantKey(org, user)].revoked
  {}

  lemma DeviceTakenBack(s: TenantState, org: string, device: string)
    requires ValidId(org) && ValidId(device) && TenantKey(org, device) in s.devices
    ensures var op := RevokeDevice(org, device);
            && Complaint(op).None? && Apply(s, op).Ok?
            && TenantKey(org, device) in Apply(s, op).value.0.devices
            && Apply(s, op).value.0.devices[TenantKey(org, device)].revoked
  {}

  lemma WorkspaceTakenBack(s: TenantState, org: string, device: string, workspace: string)
    requires ValidId(org) && ValidId(device) && ValidId(workspace) && TenantKey(org, device) in s.devices
    ensures var op := RemoveDeviceWorkspace(org, device, workspace);
            && Complaint(op).None? && Apply(s, op).Ok?
            && TenantKey(org, device) in Apply(s, op).value.0.devices
            && workspace !in Apply(s, op).value.0.devices[TenantKey(org, device)].workspaceIds
  {}

  lemma NoneAfterTakingBack(n: TenantState, org: string, user: string, device: string, workspace: string,
                            grant: Grants.Grant, required: Role)
    requires Fault(n).None? && ValidId(org) && ValidId(user) && ValidId(device) && ValidId(workspace)
    requires TenantKey(org, user) in n.memberships && TenantKey(org, device) in n.devices && grant.actorId == user
    ensures !MayAct(Take(n, RevokeMembership(org, user)).0, grant, org, device, Some(workspace), required)
    ensures !MayAct(Take(n, RevokeDevice(org, device)).0, grant, org, device, Some(workspace), required)
    ensures !MayAct(Take(n, RemoveDeviceWorkspace(org, device, workspace)).0, grant, org, device, Some(workspace), required)
  {
    MembershipTakenBack(n, org, user);
    TakesEffect(n, RevokeMembership(org, user));
    DeviceTakenBack(n, org, device);
    TakesEffect(n, RevokeDevice(org, device));
    WorkspaceTakenBack(n, org, device, workspace);
    TakesEffect(n, RemoveDeviceWorkspace(org, device, workspace));
  }

  /** Joining and pairing, and the state that makes. */
  lemma JoinsAndPairs(s: TenantState, org: string, user: string, role: Role, device: string, workspace: string)
    requires Good(s) && org in s.organizations && user in s.users && TenantKey(org, workspace) in s.workspaces
    requires ValidId(org) && ValidId(user) && ValidId(device) && ValidId(workspace)
    ensures var n := Reached(s, [SetMembership(org, user, role), PairDevice(org, device, {workspace})]);
            && Good(n) && Fault(n).None?
            && n == s.(memberships := s.memberships[TenantKey(org, user) := Membership(org, user, role, false)],
                       devices := s.devices[TenantKey(org, device) := Device(org, device, {workspace}, false)])
  {
    var join, pair := SetMembership(org, user, role), PairDevice(org, device, {workspace});
    ReachedTwo(s, join, pair);
    ReadableExactly(s);
    Joins(s, org, user, role);
    TakesEffect(s, join);
    StepKeepsGood(s, join);
    var joined := Take(s, join).0;
    ReadableExactly(joined);
    Pairs(joined, org, device, workspace);
    TakesEffect(joined, pair);
    StepKeepsGood(joined, pair);
    ReadableExactly(Take(joined, pair).0);
  }

  /**
   * A member is verified on a paired device in its workspace for every role up to its own, and for none after
   * any of the ways to take that back.
   */
  lemma MembershipCarries(s: TenantState, org: string, user: string, role: Role, device: string, workspace: string,
                          grant: Grants.Grant, required: Role)
    requires Good(s) && org in s.organizations && user in s.users && TenantKey(org, workspace) in s.workspaces
    requires ValidId(org) && ValidId(user) && ValidId(device) && ValidId(workspace)
    requires grant.organizationId == org && grant.actorId == user && workspace in grant.workspaceIds
    ensures var n := Reached(s, [SetMembership(org, user, role), PairDevice(org, device, {workspace})]);
            var may := (t: TenantState) => MayAct(t, grant, org, device, Some(workspace), required);
            && (may(n) <==> Carries(role, required))
            && !may(Take(n, RevokeMembership(org, user)).0)
            && !may(Take(n, RevokeDevice(org, device)).0)
            && !may(Take(n, RemoveDeviceWorkspace(org, device, workspace)).0)
  {
    JoinsAndPairs(s, org, user, role, device, workspace);
    var n := Reached(s, [SetMembership(org, user, role), PairDevice(org, device, {workspace})]);
    NoneAfterTakingBack(n, org, user, device, workspace, grant, required);
  }

  // --------------------------------------------------------------------------- usage

  predicate Records(s: TenantState, op: Op, org: string, workspace: Option<string>, usageKey: string) {
    op.RecordUsage? && op.org == org && op.workspace == workspace && op.usageKey == usageKey && Take(s, op).1.Ok?
  }

  /** All units the calls recorded under one organisation, workspace and key. */
  function Units(ops: seq<Op>, org: string, workspace: Option<string>, usageKey: string): nat {
    if ops == [] then 0
    else
      var n := |ops| - 1;
      Units(ops[..n], org, workspace, usageKey)
      + if Records(Reached(Empty(), ops[..n]), ops[n], org, workspace, usageKey) then ops[n].units else 0
  }

  function UnitsAt(s: TenantState, key: string): u64 {
    if key in s.usage then s.usage[key].units else 0
  }

  lemma OnlyRecordingChangesUsage(s: TenantState, op: Op)
    requires !(op.RecordUsage? && Take(s, op).1.Ok?)
    ensures Take(s, op).0.usage == s.usage
  {
    TakesOrLeaves(s, op);
  }

  lemma RecordingAdds(s: TenantState, op: Op)
    requires op.RecordUsage? && Take(s, op).1.Ok?
    ensures var key := UsageKeyFor(op.org, op.workspace, op.usageKey);
            var n := Take(s, op).0;
            && UnitsAt(n, key) == SaturatingAdd(UnitsAt(s, key), op.units)
            && forall k | k != key :: UnitsAt(n, k) == UnitsAt(s, k)
    ensures op.workspace != Some("")
  {
    Taken(s, op);
    assert Blank("");
  }

  lemma UsageStep(s: TenantState, op: Op, org: string, workspace: Option<string>, usageKey: string)
    requires workspace != Some("")
    ensures var key := UsageKeyFor(org, workspace, usageKey);
            UnitsAt(Take(s, op).0, key)
            == if Records(s, op, org, workspace, usageKey) then SaturatingAdd(UnitsAt(s, key), op.units) else UnitsAt(s, key)
  {
    if op.RecordUsage? && Take(s, op).1.Ok? {
      RecordingAdds(s, op);
      if UsageKeyFor(op.org, op.workspace, op.usageKey) == UsageKeyFor(org, workspace, usageKey) {
        UsageKeyInjective(op.org, op.workspace, op.usageKey, org, workspace, usageKey);
      }
    } else {
      OnlyRecordingChangesUsage(s, op);
    }
  }

  /** A usage record holds the sum of what was recorded under it, capped at the largest 64-bit number. */
  lemma {:induction false} UsageAddsUp(ops: seq<Op>, org: string, workspace: Option<string>, usageKey: string)
    requires workspace != Some("")
    ensures var key := UsageKeyFor(org, workspace, usageKey);
            var n := Reached(Empty(), ops);
            var total := Units(ops, org, workspace, usageKey);
            UnitsAt(n, key) == if total > U64_MAX then U64_MAX else total
  {
    if ops != [] {
      var n := |ops| - 1;
      UsageAddsUp(ops[..n], org, workspace, usageKey);
      UsageStep(Reached(Empty(), ops[..n]), ops[n], org, workspace, usageKey);
    }
  }

  /** The same for callers of any number of instances over one file, interleaved as they like. */
  lemma NonInterferenceAcrossInstances(
    w: World<TenantState, Op, Answer>, actions: seq<Action<Op>>, reply: Reply<Op, Answer>, a: string
  )
    requires Settled(Empty(), w) && reply in Run(TenantSpec(), w, actions).replies && reply.at.Some?
    requires Concerns(reply.op, a)
    ensures var ops := Ops(Run(TenantSpec(), w, actions).log);
            && reply.at.value <= |ops|
            && reply.result == Take(Reached(Empty(), Purge(ops[..reply.at.value], a)), reply.op).1
  {
    ReplyIsAtomic(TenantSpec(), Empty(), w, actions, reply);
    NonInterference(Ops(Run(TenantSpec(), w, actions).log)[..reply.at.value], a, reply.op);
  }

  // ----------------------------------------------------------------------- the store

  /** A call that gets past the early checks is served by the change it makes under the lock. */
  lemma ServedUnderLock(faults: Faults, s: TenantState, op: Op, mutate: TenantState -> Change)
    requires Early(op).None? && mutate(s) == Apply(s, op)
    ensures Served(TenantSpec(), faults, s, op) == UnderLock(faults, Fault(s), s, mutate)
  {}

  lemma UsageIsSound(org: string, workspace: Option<string>, usageKey: string, units: u64)
    requires ValidId(org) && (workspace.Some? ==> ValidId(workspace.value)) && ValidId(usageKey)
    ensures Early(RecordUsage(org, workspace, usageKey, units)).None?
  {}

  function QueryAnswer(s: TenantState, op: Op): Result<Answer, AuthError>
    requires op.VerifyContext? || op.ListUsage?
  {
    match op
    case ListUsage(org) => Ok(Listed(ListIn(s, org)))
    case VerifyContext(grant, org, device, workspace, required) =>
      match VerifyIn(s, grant, org, device, workspace, required)
      case Err(e) => Err(e)
      case Ok(c) => Ok(Verified(c))
  }

  lemma QueryApplies(s: TenantState, op: Op)
    requires op.VerifyContext? || op.ListUsage?
    ensures Apply(s, op) == match QueryAnswer(s, op) case Err(e) => Err(e) case Ok(r) => Ok((s, r))
  {}

  /** A query changes nothing, and fails with the first thing that is wrong. */
  lemma ServedQuery(faults: Faults, s: TenantState, op: Op)
    requires op.VerifyContext? || op.ListUsage?
    ensures Served(TenantSpec(), faults.(write := None), s, op)
         == (s, var refused := First(Complaint(op), First(faults.lock, First(faults.read, Fault(s))));
                if refused.Some? then Err(refused.value) else QueryAnswer(s, op))
  {
    QueryApplies(s, op);
    assert TenantSpec().apply(s, op) == Apply(s, op);
  }

  /** One instance: the shared file and its own copy of what was last read from it. */
  class TenantStore {
    const file: StateFile<TenantState>
    var state: TenantState

    constructor (file: StateFile<TenantState>, state: TenantState)
      ensures this.file == file && this.state == state
    {
      this.file := file;
      this.state := state;
    }

    static method Open(file: StateFile<TenantState>) returns (r: Result<TenantStore, AuthError>)
      modifies file
      ensures file.contents == if old(file.contents).None? then Some(Empty()) else old(file.contents)
      ensures r.Ok? <==> old(file.contents).None? || Fault(old(file.contents).value).None?
      ensures r.Ok? ==> fresh(r.value) && r.value.file == file && Some(r.value.state) == file.contents
      ensures r.Err? ==> Fault(old(file.contents).value) == Some(r.error)
    {
      if file.contents.None? {
        file.contents := Some(Empty());
      } else if Fault(file.contents.value).Some? {
        return Err(Fault(file.contents.value).value);
      }
      var store := new TenantStore(file, file.contents.value);
      r := Ok(store);
    }

    /** The call did to the file, and answered, what one call on the atomic store does. */
    ghost predicate Serves(faults: Faults, op: Op, before: Option<TenantState>, r: Result<Answer, AuthError>)
      reads file
      requires before.Some?
    {
      var served := Served(TenantSpec(), faults, before.value, op);
      file.contents == Some(served.0) && r == served.1
    }

    method Refresh(faults: Faults) returns (refused: Option<AuthError>)
      requires file.contents.Some?
      modifies this`state
      ensures refused == First(faults.lock, First(faults.read, Fault(file.contents.value)))
      ensures state == if refused.None? then file.contents.value else old(state)
    {
      if faults.lock.Some? {
        return faults.lock;
      }
      if faults.read.Some? {
        return faults.read;
      }
      var held := file.contents.value;
      refused := Fault(held);
      if refused.None? {
        state := held;
      }
    }

    method MutateState(faults: Faults, mutate: TenantState -> Change) returns (r: Result<Answer, AuthError>)
      requires file.contents.Some?
      modifies this`state, file
      ensures var (after, answer) := UnderLock(faults, Fault(old(file.contents).value), old(file.contents).value, mutate);
              file.contents == Some(after) && r == answer && (r.Ok? ==> state == after)
    {
      var refused := Refresh(faults);
      if refused.Some? {
        return Err(refused.value);
      }
      r := Publish(mutate(state), faults);
    }

    /** A changed copy becomes the file and then the state; a change that fails, or a write that does, is dropped. */
    method Publish(change: Change, faults: Faults) returns (r: Result<Answer, AuthError>)
      requires file.contents.Some?
      modifies this`state, file
      ensures r == if change.Err? then Err(change.error)
                   else if faults.write.Some? then Err(faults.write.value) else Ok(change.value.1)
      ensures file.contents == if r.Ok? then Some(change.value.0) else old(file.contents)
      ensures r.Ok? ==> state == change.value.0
    {
      if change.Err? {
        return Err(change.error);
      }
      if faults.write.Some? {
        return Err(faults.write.value);
      }
      file.contents := Some(change.value.0);
      state := change.value.0;
      r := Ok(change.value.1);
    }

    /** The organisation first, then workspace after workspace; the device is filed only if all are there. */
    method PairDeviceInCopy(copy: TenantState, organizationId: string, deviceId: string, workspaceIds: set<string>)
      returns (change: Change)
      ensures change == PairDeviceIn(copy, organizationId, deviceId, workspaceIds)
    {
      if organizationId !in copy.organizations {
        return Err(Unauthorized);
      }
      var wanted := Sorted(workspaceIds);
      var i := 0;
      while i < |wanted|
        invariant 0 <= i <= |wanted|
        invariant forall j | 0 <= j < i :: TenantKey(organizationId, wanted[j]) in copy.workspaces
      {
        if TenantKey(organizationId, wanted[i]) !in copy.workspaces {
          assert wanted[i] in workspaceIds;
          return Err(Unauthorized);
        }
        i := i + 1;
      }
      var device := Device(organizationId, deviceId, workspaceIds, false);
      change := Ok((copy.(devices := copy.devices[TenantKey(organizationId, deviceId) := device]), Done));
    }

    method RevokeMembershipInCopy(copy: TenantState, organizationId: string, userId: string) returns (change: Change)
      ensures change == RevokeMembershipIn(copy, organizationId, userId)
    {
      var key := TenantKey(organizationId, userId);
      if key !in copy.memberships {
        return Ok((copy, Done));
      }
      var record := copy.memberships[key];
      record := record.(revoked := true);
      change := Ok((copy.(memberships := copy.memberships[key := record]), Done));
    }

    /** An entry that is there is added to, one that is not is made. */
    method RecordUsageInCopy(copy: TenantState, organizationId: string, workspaceId: Option<string>, usageKey: string,
                             units: u64)
      returns (change: Change)
      ensures change == RecordUsageIn(copy, organizationId, workspaceId, usageKey, units)
    {
      if organizationId !in copy.organizations {
        return Err(Unauthorized);
      }
      var key := UsageKeyFor(organizationId, workspaceId, usageKey);
      var next := copy;
      if key in next.usage {
        var record := next.usage[key];
        record := record.(units := SaturatingAdd(record.units, units));
        next := next.(usage := next.usage[key := record]);
      } else {
        next := next.(usage := next.usage[key := Usage(organizationId, workspaceId, usageKey, units)]);
      }
      change := Ok((next, Done));
    }

    method UpsertUser(userId: string, displayName: string, faults: Faults) returns (r: Result<Answer, AuthError>)
      requires file.contents.Some?
      modifies this`state, file
      ensures Serves(faults, Op.UpsertUser(userId, displayName), old(file.contents), r)
    {
      if !ValidId(userId) {
        return Err(InvalidTenant);
      }
      var change := (s: TenantState) => Ok((s.(users := s.users[userId := User(userId, displayName)]), Done));
      ServedUnderLock(faults, file.contents.value, Op.UpsertUser(userId, displayName), change);
      r := MutateState(faults, change);
    }

    method UpsertOrganization(organizationId: string, name: string, faults: Faults) returns (r: Result<Answer, AuthError>)
      requires file.contents.Some?
      modifies this`state, file
      ensures Serves(faults, Op.UpsertOrganization(organizationId, name), old(file.contents), r)
    {
      if !ValidId(organizationId) {
        return Err(InvalidTenant);
      }
      var change := (s: TenantState) =>
        Ok((s.(organizations := s.organizations[organizationId := Organization(organizationId, name)]), Done));
      ServedUnderLock(faults, file.contents.value, Op.UpsertOrganization(organizationId, name), change);
      r := MutateState(faults, change);
    }

    method UpsertWorkspace(organizationId: string, workspaceId: string, name: string, faults: Faults)
      returns (r: Result<Answer, AuthError>)
      requires file.contents.Some?
      modifies this`state, file
      ensures Serves(faults, Op.UpsertWorkspace(organizationId, workspaceId, name), old(file.contents), r)
    {
      if !ValidId(workspaceId) || !ValidId(organizationId) {
        return Err(InvalidTenant);
      }
      var change := (s: TenantState) => UpsertWorkspaceIn(s, organizationId, workspaceId, name);
      ServedUnderLock(faults, file.contents.value, Op.UpsertWorkspace(organizationId, workspaceId, name), change);
      r := MutateState(faults, change);
    }

    method SetMembership(organizationId: string, userId: string, role: Role, faults: Faults)
      returns (r: Result<Answer, AuthError>)
      requires file.contents.Some?
      modifies this`state, file
      ensures Serves(faults, Op.SetMembership(organizationId, userId, role), old(file.contents), r)
    {
      if !ValidId(organizationId) || !ValidId(userId) {
        return Err(InvalidTenant);
      }
      var change := (s: TenantState) => SetMembershipIn(s, organizationId, userId, role);
      ServedUnderLock(faults, file.contents.value, Op.SetMembership(organizationId, userId, role), change);
      r := MutateState(faults, change);
    }

    method RevokeMembership(organizationId: string, userId: string, faults: Faults) returns (r: Result<Answer, AuthError>)
      requires file.contents.Some?
      modifies this`state, file
      ensures Serves(faults, Op.RevokeMembership(organizationId, userId), old(file.contents), r)
    {
      if !ValidId(organizationId) || !ValidId(userId) {
        return Err(InvalidTenant);
      }
      ghost var change := (s: TenantState) => RevokeMembershipIn(s, organizationId, userId);
      ServedUnderLock(faults, file.contents.value, Op.RevokeMembership(organizationId, userId), change);
      var refused := Refresh(faults);
      if refused.Some? { return Err(refused.value); }
      var changed := RevokeMembershipInCopy(state, organizationId, userId);
      r := Publish(changed, faults);
    }

    method PairDevice(organizationId: string, deviceId: string, workspaceIds: set<string>, faults: Faults)
      returns (r: Result<Answer, AuthError>)
      requires file.contents.Some?
      modifies this`state, file
      ensures Serves(faults, Op.PairDevice(organizationId, deviceId, workspaceIds), old(file.contents), r)
    {
      if !ValidId(deviceId) || !ValidId(organizationId) {
        return Err(InvalidTenant);
      }
      if !AllValidIds(workspaceIds) {
        return Err(InvalidTenant);
      }
      ghost var change := (s: TenantState) => PairDeviceIn(s, organizationId, deviceId, workspaceIds);
      ServedUnderLock(faults, file.contents.value, Op.PairDevice(organizationId, deviceId, workspaceIds), change);
      var refused := Refresh(faults);
      if refused.Some? { return Err(refused.value); }
      var changed := PairDeviceInCopy(state, organizationId, deviceId, workspaceIds);
      r := Publish(changed, faults);
    }

    method RevokeDevice(organizationId: string, deviceId: string, faults: Faults) returns (r: Result<Answer, AuthError>)
      requires file.contents.Some?
      modifies this`state, file
      ensures Serves(faults, Op.RevokeDevice(organizationId, deviceId), old(file.contents), r)
    {
      if !ValidId(organizationId) || !ValidId(deviceId) {
        return Err(InvalidTenant);
      }
      var change := (s: TenantState) => RevokeDeviceIn(s, organizationId, deviceId);
      ServedUnderLock(faults, file.contents.value, Op.RevokeDevice(organizationId, deviceId), change);
      r := MutateState(faults, change);
    }

    method RemoveDeviceWorkspace(organizationId: string, deviceId: string, workspaceId: string, faults: Faults)
      returns (r: Result<Answer, AuthError>)
      requires file.contents.Some?
      modifies this`state, file
      ensures Serves(faults, Op.RemoveDeviceWorkspace(organizationId, deviceId, workspaceId), old(file.contents), r)
    {
      if !ValidId(organizationId) || !ValidId(deviceId) || !ValidId(workspaceId) {
        return Err(InvalidTenant);
      }
      var change := (s: TenantState) => RemoveDeviceWorkspaceIn(s, organizationId, deviceId, workspaceId);
      ServedUnderLock(faults, file.contents.value, Op.RemoveDeviceWorkspace(organizationId, deviceId, workspaceId), change);
      r := MutateState(faults, change);
    }

    method RecordUsage(organizationId: string, workspaceId: Option<string>, usageKey: string, units: u64,
                       faults: Faults)
      returns (r: Result<Answer, AuthError>)
      requires file.contents.Some?
      modifies this`state, file
      ensures Serves(faults, Op.RecordUsage(organizationId, workspaceId, usageKey, units), old(file.contents), r)
    {
      if !ValidId(organizationId) {
        return Err(InvalidTenant);
      }
      if workspaceId.Some? && !ValidId(workspaceId.value) {
        return Err(InvalidTenant);
      }
      if !ValidId(usageKey) {
        return Err(InvalidTenant);
      }
      UsageIsSound(organizationId, workspaceId, usageKey, units);
      r := RecordSoundUsage(organizationId, workspaceId, usageKey, units, faults);
    }

    method RecordSoundUsage(organizationId: string, workspaceId: Option<string>, usageKey: string, units: u64,
                            faults: Faults)
      returns (r: Result<Answer, AuthError>)
      requires file.contents.Some? && Early(Op.RecordUsage(organizationId, workspaceId, usageKey, units)).None?
      modifies this`state, file
      ensures Serves(faults, Op.RecordUsage(organizationId, workspaceId, usageKey, units), old(file.contents), r)
    {
      ghost var change := (s: TenantState) => RecordUsageIn(s, organizationId, workspaceId, usageKey, units);
      ServedUnderLock(faults, file.contents.value, Op.RecordUsage(organizationId, workspaceId, usageKey, units), change);
      var refused := Refresh(faults);
      if refused.Some? { return Err(refused.value); }
      var changed := RecordUsageInCopy(state, organizationId, workspaceId, usageKey, units);
      r := Publish(changed, faults);
    }

    method VerifyContext(grant: Grants.Grant, organizationId: string, deviceId: string, workspaceId: Option<string>,
                         required: Role, faults: Faults)
      returns (r: Result<Answer, AuthError>)
      requires file.contents.Some?
      modifies this`state
      ensures Serves(faults.(write := None), Op.VerifyContext(grant, organizationId, deviceId, workspaceId, required),
                     old(file.contents), r)
    {
      ServedQuery(faults, file.contents.value, Op.VerifyContext(grant, organizationId, deviceId, workspaceId, required));
      if !ValidId(organizationId) || !ValidId(deviceId) || (workspaceId.Some? && !ValidId(workspaceId.value)) {
        return Err(InvalidTenant);
      }
      if grant.organizationId != organizationId {
        return Err(Unauthorized);
      }
      var refused := Refresh(faults);
      if refused.Some? {
        return Err(refused.value);
      }
      var member := TenantKey(organizationId, grant.actorId);
      if member !in state.memberships {
        return Err(Unauthorized);
      }
      var membership := state.memberships[member];
      if membership.revoked || membership.role.Rank() < required.Rank() {
        return Err(Unauthorized);
      }
      var paired := TenantKey(organizationId, deviceId);
      if paired !in state.devices || state.devices[paired].revoked {
        return Err(Unauthorized);
      }
      if workspaceId.Some? && (|| TenantKey(organizationId, workspaceId.value) !in state.workspaces
                               || workspaceId.value !in state.devices[paired].workspaceIds
                               || workspaceId.value !in grant.workspaceIds) {
        return Err(Unauthorized);
      }
      r := Ok(Verified(Context(organizationId, grant.actorId, deviceId, workspaceId, membership.role, grant.scopes)));
    }

    method ListUsageForOrg(organizationId: string, faults: Faults) returns (r: Result<Answer, AuthError>)
      requires file.contents.Some?
      modifies this`state
      ensures Serves(faults.(write := None), Op.ListUsage(organizationId), old(file.contents), r)
    {
      ServedQuery(faults, file.contents.value, Op.ListUsage(organizationId));
      if !ValidId(organizationId) {
        return Err(InvalidTenant);
      }
      var refused := Refresh(faults);
      if refused.Some? {
        return Err(refused.value);
      }
      r := Ok(Listed(ListIn(state, organizationId)));
    }
  }
}
