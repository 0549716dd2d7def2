/** The grant store: tokens, pairing codes and registered clients in one shared file. */
module Grants {
  import opened Wrappers
  import opened Bytes
  import opened Ids
  import opened Stores

  datatype Grant = Grant(
    grantId: string,
    organizationId: string,
    actorId: string,
    workspaceIds: set<string>,
    scopes: set<string>,
    issuedAt: u64,
    expiresAt: u64,
    revoked: bool
  )

  datatype Pairing = Pairing(pairingId: string, scopes: set<string>, createdAt: u64, expiresAt: u64, grantTtl: u64)

  datatype Client = Client(redirectUris: seq<string>, clientName: string, registeredAt: u64)

  /** The file: grants by the hash of their token, pairings by the hash of their code. */
  datatype GrantState = GrantState(
    version: nat,
    deviceId: string,
    grants: map<string, Grant>,
    pairings: map<string, Pairing>,
    clients: map<string, Client>
  )

  /** A call. Random tokens, codes and ids are arguments. */
  datatype Op =
    | DeviceId
    | Register(clientId: string, client: Client)
    | LookUp(clientId: string)
    | Issue(organizationId: string, actorId: string, workspaceIds: set<string>, scopes: set<string>,
            ttl: u64, now: u64, token: string, grantId: string)
    | CreatePairing(scopes: set<string>, pairingTtl: u64, grantTtl: u64, now: u64, code: string, pairingId: string)
    | Redeem(code: string, actorId: string, now: u64, token: string, grantId: string)
    | Validate(token: string, requiredScope: string, now: u64)
    | Revoke(grantId: string, organization: Option<string>)
    | Expire(grantId: string, organizationId: string, expiresAt: u64)
    | RemoveWorkspace(grantId: string, organizationId: string, workspaceId: string)
    | PruneGrants(now: u64)
    | PrunePairings(now: u64)

  datatype Answer =
    | Device(deviceId: string)
    | Registered(client: Client)
    | Found(maybeClient: Option<Client>)
    | Issued(token: string, grant: Grant)
    | Paired(code: string, pairing: Pairing)
    | Accepted(grant: Grant)
    | Changed(flag: bool)
    | Removed(count: int)

  type Hash = string -> string

  // ------------------------------------------------------------------- what is valid

  function CheckGrant(g: Grant): Option<AuthError> {
    First(CheckId(g.organizationId), First(CheckActor(g.actorId), CheckIds(g.workspaceIds)))
  }

  function CheckGrants(grants: map<string, Grant>, keys: seq<string>): Option<AuthError>
    requires forall k | k in keys :: k in grants
  {
    if keys == [] then None else First(CheckGrant(grants[keys[0]]), CheckGrants(grants, keys[1..]))
  }

  /** Why a file is refused when it is read, if it is. */
  function Fault(s: GrantState): Option<AuthError> {
    if s.version != 1 || s.deviceId == "" then Some(InvalidState)
    else CheckGrants(s.grants, Sorted(s.grants.Keys))
  }

  predicate SoundGrant(g: Grant) {
    ValidId(g.organizationId) && ValidId(g.actorId) && AllValidIds(g.workspaceIds)
  }

  lemma {:induction false} GrantsPassTogether(grants: map<string, Grant>, keys: seq<string>)
    requires forall k | k in keys :: k in grants
    ensures CheckGrants(grants, keys).None? <==> forall k | k in keys :: SoundGrant(grants[k])
  {
    if keys != [] {
      GrantsPassTogether(grants, keys[1..]);
      assert keys == [keys[0]] + keys[1..];
    }
  }

  /** A file is read back exactly when it is a version 1 file of a device and its grants are all sound. */
  lemma ReadableExactly(s: GrantState)
    ensures Fault(s).None? <==> s.version == 1 && s.deviceId != "" && forall h | h in s.grants :: SoundGrant(s.grants[h])
  {
    GrantsPassTogether(s.grants, Sorted(s.grants.Keys));
  }

  // --------------------------------------------------------- before the lock is taken

  function NonBlank(values: set<string>): set<string> {
    set v | v in values && !Blank(v)
  }

  function IssueComplaint(op: Op): Option<AuthError>
    requires op.Issue?
  {
    First(if op.ttl == 0 then Some(InvalidTtl) else None,
    First(CheckId(op.organizationId),
    First(CheckActor(op.actorId),
    First(CheckIds(NonBlank(op.workspaceIds)),
    First(if NonBlank(op.scopes) == {} then Some(NoScopes) else None,
          if CheckedAdd(op.now, op.ttl).None? then Some(InvalidTtl) else None)))))
  }

  function PairingComplaint(op: Op): Option<AuthError>
    requires op.CreatePairing?
  {
    First(if op.pairingTtl == 0 || op.grantTtl == 0 then Some(InvalidTtl) else None,
    First(if NonBlank(op.scopes) == {} then Some(NoScopes) else None,
          if CheckedAdd(op.now, op.pairingTtl).None? then Some(InvalidTtl) else None))
  }

  function Complaint(op: Op): Option<AuthError> {
    match op
    case Register(id, client) =>
      if Blank(id) || Blank(client.clientName) || client.redirectUris == [] then Some(Unauthorized) else None
    case Issue(_, _, _, _, _, _, _, _) => IssueComplaint(op)
    case CreatePairing(_, _, _, _, _, _) => PairingComplaint(op)
    case Redeem(code, actor, _, _, _) => if code == "" || Blank(actor) then Some(Unauthorized) else None
    case Validate(token, scope, _) => if token == "" || scope == "" then Some(Unauthorized) else None
    case Revoke(_, Some(organization)) => CheckId(organization)
    case Expire(_, organization, _) => CheckId(organization)
    case RemoveWorkspace(_, organization, workspace) => First(CheckId(organization), CheckId(workspace))
    case _ => None
  }

  /** A call's answer when it does not get as far as the lock. */
  function Early(op: Op): Option<Result<Answer, AuthError>> {
    if op.LookUp? && op.clientId == "" then Some(Ok(Found(None)))
    else match Complaint(op) case Some(e) => Some(Err(e)) case None => None
  }

  // --------------------------------------------------------------- under the lock

  type Change = Result<(GrantState, Answer), AuthError>

  function NewGrant(op: Op): Grant
    requires op.Issue? && Complaint(op).None?
  {
    Grant(op.grantId, op.organizationId, op.actorId, NonBlank(op.workspaceIds), NonBlank(op.scopes),
          op.now, op.now + op.ttl, false)
  }

  function NewPairing(op: Op): Pairing
    requires op.CreatePairing? && Complaint(op).None?
  {
    Pairing(op.pairingId, NonBlank(op.scopes), op.now, op.now + op.pairingTtl, op.grantTtl)
  }

  function RedeemIn(hash: Hash, s: GrantState, code: string, actor: string, now: u64, token: string, grantId: string)
    : Change
  {
    var at := hash(code);
    if at !in s.pairings then Err(Unauthorized)
    else
      var pairing := s.pairings[at];
      if pairing.expiresAt <= now then Err(Unauthorized)
      else
        match CheckedAdd(now, pairing.grantTtl)
        case None => Err(InvalidTtl)
        case Some(until) =>
          var grant := Grant(grantId, "local", actor, {}, pairing.scopes, now, until, false);
          Ok((s.(pairings := s.pairings - {at}, grants := s.grants[hash(token) := grant]), Issued(token, grant)))
  }

  function ValidateIn(hash: Hash, s: GrantState, token: string, requiredScope: string, now: u64): Result<Grant, AuthError> {
    if hash(token) !in s.grants then Err(Unauthorized)
    else
      var grant := s.grants[hash(token)];
      if grant.revoked || grant.expiresAt <= now then Err(Unauthorized)
      else if requiredScope !in grant.scopes && "*" !in grant.scopes then Err(InsufficientScope(requiredScope))
      else Ok(grant)
  }

  predicate Named(g: Grant, grantId: string, organization: Option<string>) {
    g.grantId == grantId && (organization.None? || g.organizationId == organization.value)
  }

  /** The grant of this id, the first in the file's order should there be several. */
  function Find(s: GrantState, grantId: string, organization: Option<string>): (h: Option<string>)
    ensures h.Some? ==> h.value in s.grants && Named(s.grants[h.value], grantId, organization)
    ensures h.None? ==> forall k | k in s.grants :: !Named(s.grants[k], grantId, organization)
  {
    var matching := set h | h in s.grants && Named(s.grants[h], grantId, organization);
    if matching == {} then
      assert forall k | k in s.grants && Named(s.grants[k], grantId, organization) :: k in matching;
      None
    else Some(Least(matching))
  }

  function ExpireIn(s: GrantState, grantId: string, organizationId: string, expiresAt: u64): Change {
    match Find(s, grantId, Some(organizationId))
    case None => Ok((s, Changed(false)))
    case Some(h) =>
      if expiresAt < s.grants[h].issuedAt then Err(InvalidTtl)
      else Ok((s.(grants := s.grants[h := s.grants[h].(expiresAt := expiresAt)]), Changed(true)))
  }

  function RemoveWorkspaceIn(s: GrantState, grantId: string, organizationId: string, workspaceId: string): Change {
    match Find(s, grantId, Some(organizationId))
    case None => Ok((s, Changed(false)))
    case Some(h) =>
      var g := s.grants[h];
      Ok((s.(grants := s.grants[h := g.(workspaceIds := g.workspaceIds - {workspaceId})]),
          Changed(workspaceId in g.workspaceIds)))
  }

  function RevokeIn(s: GrantState, grantId: string, organization: Option<string>): Change {
    match Find(s, grantId, organization)
    case None => Ok((s, Changed(false)))
    case Some(h) => Ok((s.(grants := s.grants[h := s.grants[h].(revoked := true)]), Changed(true)))
  }

  function PruneGrantsIn(s: GrantState, now: u64): Change {
    var kept := map h | h in s.grants && s.grants[h].expiresAt > now && !s.grants[h].revoked :: s.grants[h];
    Ok((s.(grants := kept), Removed(|s.grants| - |kept|)))
  }

  function PrunePairingsIn(s: GrantState, now: u64): Change {
    var kept := map h | h in s.pairings && s.pairings[h].expiresAt > now :: s.pairings[h];
    Ok((s.(pairings := kept), Removed(|s.pairings| - |kept|)))
  }

  /** What a call that got the lock and a readable file makes of it. */
  function Apply(hash: Hash, s: GrantState, op: Op): Change {
    match op
    case DeviceId => Ok((s, Device(s.deviceId)))
    case Register(id, client) => Ok((s.(clients := s.clients[id := client]), Registered(client)))
    case LookUp(id) => Ok((s, Found(if id in s.clients then Some(s.clients[id]) else None)))
    case Issue(_, _, _, _, _, _, token, _) =>
      if Complaint(op).Some? then Err(Complaint(op).value)
      else Ok((s.(grants := s.grants[hash(token) := NewGrant(op)]), Issued(token, NewGrant(op))))
    case CreatePairing(_, _, _, _, code, _) =>
      if Complaint(op).Some? then Err(Complaint(op).value)
      else Ok((s.(pairings := s.pairings[hash(code) := NewPairing(op)]), Paired(code, NewPairing(op))))
    case Redeem(code, actor, now, token, grantId) => RedeemIn(hash, s, code, actor, now, token, grantId)
    case Validate(token, scope, now) =>
      (match ValidateIn(hash, s, token, scope, now)
       case Err(e) => Err(e)
       case Ok(g) => Ok((s, Accepted(g))))
    case Revoke(grantId, organization) => RevokeIn(s, grantId, organization)
    case Expire(grantId, organization, expiresAt) => ExpireIn(s, grantId, organization, expiresAt)
    case RemoveWorkspace(grantId, organization, workspace) => RemoveWorkspaceIn(s, grantId, organization, workspace)
    case PruneGrants(now) => PruneGrantsIn(s, now)
    case PrunePairings(now) => PrunePairingsIn(s, now)
  }

  function Empty(deviceId: string): GrantState {
    GrantState(1, deviceId, map[], map[], map[])
  }

  /** A file just created can be read, if its device has a name. */
  lemma EmptyReads(deviceId: string)
    ensures Fault(Empty(deviceId)).None? <==> deviceId != ""
    ensures var s := Empty(deviceId); s.deviceId == deviceId && s.grants == map[] && s.pairings == map[] && s.clients == map[]
  {
    ReadableExactly(Empty(deviceId));
  }

  function GrantSpec(hash: Hash): Spec<GrantState, Op, Answer> {
    Spec(Early, Fault, (s: GrantState, op: Op) => Apply(hash, s, op), Empty)
  }

  function Take(hash: Hash, s: GrantState, op: Op): (GrantState, Result<Answer, AuthError>) {
    Atomic(GrantSpec(hash), s, op)
  }

  function Reached(hash: Hash, s: GrantState, ops: seq<Op>): GrantState {
    After(GrantSpec(hash), s, ops)
  }

  /** `Take` with the indirections through `Spec` gone. */
  lemma Taken(hash: Hash, s: GrantState, op: Op)
    ensures Take(hash, s, op)
         == (if Early(op).Some? then (s, Early(op).value)
             else if Fault(s).Some? then (s, Err(Fault(s).value))
             else if Apply(hash, s, op).Err? then (s, Err(Apply(hash, s, op).error))
             else (Apply(hash, s, op).value.0, Ok(Apply(hash, s, op).value.1)))
  {}

  /** A call that gets past the early checks is served by the change it makes under the lock. */
  lemma ServedUnderLock(hash: Hash, faults: Faults, s: GrantState, op: Op, mutate: GrantState -> Change)
    requires Early(op).None? && mutate(s) == Apply(hash, s, op)
    ensures Served(GrantSpec(hash), faults, s, op) == UnderLock(faults, Fault(s), s, mutate)
  {}

  // ------------------------------------------------------------- the life of one grant

  /** The call gives out a token with this hash. */
  predicate Mints(hash: Hash, op: Op, h: string) {
    (op.Issue? || op.Redeem?) && hash(op.token) == h
  }

  /** What a grant may become: less, never more, except that its expiry may be moved. */
  predicate Descends(g: Grant, later: Grant) {
    && later.grantId == g.grantId && later.organizationId == g.organizationId && later.actorId == g.actorId
    && later.scopes == g.scopes && later.issuedAt == g.issuedAt
    && later.workspaceIds <= g.workspaceIds
    && (g.revoked ==> later.revoked)
  }

  ghost predicate Kept(s: GrantState, n: GrantState, h: string) {
    h in n.grants ==> h in s.grants && Descends(s.grants[h], n.grants[h])
  }

  /** Calls that change one grant found by its id. */
  lemma NamedChangeKeeps(s: GrantState, op: Op, h: string)
    requires op.Revoke? || op.Expire? || op.RemoveWorkspace?
    ensures var c := (match op
                      case Revoke(id, organization) => RevokeIn(s, id, organization)
                      case Expire(id, organization, expiresAt) => ExpireIn(s, id, organization, expiresAt)
                      case RemoveWorkspace(id, organization, workspace) => RemoveWorkspaceIn(s, id, organization, workspace));
            c.Ok? ==> Kept(s, c.value.0, h)
  {}

  lemma ApplyKeeps(hash: Hash, s: GrantState, op: Op, h: string)
    requires !Mints(hash, op, h) && Apply(hash, s, op).Ok?
    ensures Kept(s, Apply(hash, s, op).value.0, h)
  {
    match op
    case Revoke(_, _) => NamedChangeKeeps(s, op, h);
    case Expire(_, _, _) => NamedChangeKeeps(s, op, h);
    case RemoveWorkspace(_, _, _) => NamedChangeKeeps(s, op, h);
    case _ =>
  }

  lemma StepDescends(hash: Hash, s: GrantState, op: Op, h: string)
    requires !Mints(hash, op, h)
    ensures var n := Take(hash, s, op).0; h in n.grants ==> h in s.grants && Descends(s.grants[h], n.grants[h])
  {
    Taken(hash, s, op);
    if Apply(hash, s, op).Ok? {
      ApplyKeeps(hash, s, op, h);
    }
  }

  /**
   * Between two moments, unless its token hash is given out again, a grant keeps its id, organisation, actor,
   * scopes and issue time; its workspaces only shrink, a revocation stays, and a grant that is gone stays gone.
   */
  lemma {:induction false} GrantsOnlyShrink(hash: Hash, s: GrantState, ops: seq<Op>, h: string)
    requires forall op | op in ops :: !Mints(hash, op, h)
    ensures var n := Reached(hash, s, ops); h in n.grants ==> h in s.grants && Descends(s.grants[h], n.grants[h])
  {
    if ops != [] {
      var n := |ops| - 1;
      GrantsOnlyShrink(hash, s, ops[..n], h);
      StepDescends(hash, Reached(hash, s, ops[..n]), ops[n], h);
    }
  }

  /** A token once revoked or gone is refused from then on, whatever it is asked for, until its hash is given out again. */
  lemma RevokedForGood(hash: Hash, s: GrantState, ops: seq<Op>, token: string, scope: string, now: u64)
    requires hash(token) in s.grants ==> s.grants[hash(token)].revoked
    requires forall op | op in ops :: !Mints(hash, op, hash(token))
    ensures Take(hash, Reached(hash, s, ops), Validate(token, scope, now)).1.Err?
  {
    GrantsOnlyShrink(hash, s, ops, hash(token));
    Taken(hash, Reached(hash, s, ops), Validate(token, scope, now));
  }

  predicate DistinctIds(s: GrantState) {
    forall h, k | h in s.grants && k in s.grants && s.grants[h].grantId == s.grants[k].grantId :: h == k
  }

  /** The random token and id of this call are not in the file. */
  predicate FreshGrant(hash: Hash, s: GrantState, op: Op) {
    op.Issue? || op.Redeem? ==>
      hash(op.token) !in s.grants && forall h | h in s.grants :: s.grants[h].grantId != op.grantId
  }

  lemma IdsStayDistinct(hash: Hash, s: GrantState, op: Op)
    requires DistinctIds(s) && FreshGrant(hash, s, op)
    ensures DistinctIds(Take(hash, s, op).0)
  {
    Taken(hash, s, op);
    var n := Take(hash, s, op).0;
    forall h, k | h in n.grants && k in n.grants && n.grants[h].grantId == n.grants[k].grantId
      ensures h == k
    {
      if !Mints(hash, op, h) {
        StepDescends(hash, s, op, h);
      }
      if !Mints(hash, op, k) {
        StepDescends(hash, s, op, k);
      }
    }
  }

  // ------------------------------------------------------------------ what gets written

  /**
   * The one call that writes a file no instance will read: redeeming a code that is good now, for an actor whose
   * id is not blank but not valid either.
   */
  predicate Bricks(hash: Hash, s: GrantState, op: Op) {
    && op.Redeem? && Early(op).None? && !ValidId(op.actorId)
    && hash(op.code) in s.pairings && s.pairings[hash(op.code)].expiresAt > op.now
    && op.now + s.pairings[hash(op.code)].grantTtl <= U64_MAX
  }

  lemma LocalIsValid()
    ensures ValidId("local")
  {
    assert Utf8("local") == Utf8Char('l') + Utf8("ocal");
    assert "local"[0] == 'l' && !IsWhitespace('l');
    assert Utf8("ocal") == Utf8Char('o') + Utf8("cal");
    assert Utf8("cal") == Utf8Char('c') + Utf8("al");
    assert Utf8("al") == Utf8Char('a') + Utf8("l");
    assert Utf8("l") == Utf8Char('l') + Utf8("");
  }

  /**
   * What redeeming does, case by case. An expired code is refused, and because the call fails it is not
   * removed from the file either: only pruning removes it.
   */
  lemma RedeemExactly(hash: Hash, s: GrantState, op: Op)
    requires op.Redeem? && Early(op).None? && Fault(s).None?
    ensures var (n, r) := Take(hash, s, op);
            var h := hash(op.code);
            var good := h in s.pairings && s.pairings[h].expiresAt > op.now && op.now + s.pairings[h].grantTtl <= U64_MAX;
            && (r.Ok? <==> good)
            && (!good ==> n == s)
            && (good ==>
                 && r.value.Issued? && r.value.token == op.token
                 && h !in n.pairings && (forall k | k != h :: k in n.pairings <==> k in s.pairings)
                 && hash(op.token) in n.grants && n.grants[hash(op.token)] == r.value.grant
                 && r.value.grant.scopes == s.pairings[h].scopes && r.value.grant.actorId == op.actorId
                 && r.value.grant.organizationId == "local" && r.value.grant.workspaceIds == {}
                 && r.value.grant.expiresAt == op.now + s.pairings[h].grantTtl)
  {
    Taken(hash, s, op);
  }

  lemma BadGrantBricks(hash: Hash, s: GrantState, op: Op)
    requires Fault(s).None? && Bricks(hash, s, op)
    ensures Fault(Take(hash, s, op).0).Some?
  {
    RedeemExactly(hash, s, op);
    var n := Take(hash, s, op).0;
    ReadableExactly(n);
    assert !SoundGrant(n.grants[hash(op.token)]);
  }

  lemma GoodGrantReads(hash: Hash, s: GrantState, op: Op)
    requires Fault(s).None? && !Bricks(hash, s, op)
    ensures Fault(Take(hash, s, op).0).None?
  {
    var n := Take(hash, s, op).0;
    if n != s {
      ReadableExactly(s);
      NewGrantSound(hash, s, op);
      forall h | h in n.grants
        ensures SoundGrant(n.grants[h])
      {
        if !Mints(hash, op, h) {
          StepDescends(hash, s, op, h);
        }
      }
      KeepsHeader(hash, s, op);
      ReadableExactly(n);
    }
  }

  lemma KeepsHeader(hash: Hash, s: GrantState, op: Op)
    ensures Take(hash, s, op).0.version == s.version && Take(hash, s, op).0.deviceId == s.deviceId
  {
    Taken(hash, s, op);
  }

  lemma NewGrantSound(hash: Hash, s: GrantState, op: Op)
    requires Fault(s).None? && !Bricks(hash, s, op) && Take(hash, s, op).0 != s
    ensures forall h | h in Take(hash, s, op).0.grants && Mints(hash, op, h) :: SoundGrant(Take(hash, s, op).0.grants[h])
  {
    Taken(hash, s, op);
    LocalIsValid();
    if op.Redeem? {
      RedeemExactly(hash, s, op);
    }
  }

  /** A readable file stays readable exactly unless a good code is redeemed for an invalid actor. */
  lemma ReadableUnlessBricked(hash: Hash, s: GrantState, op: Op)
    requires Fault(s).None?
    ensures Fault(Take(hash, s, op).0).None? <==> !Bricks(hash, s, op)
  {
    if Bricks(hash, s, op) {
      BadGrantBricks(hash, s, op);
    } else {
      GoodGrantReads(hash, s, op);
    }
  }

  lemma OfferStands(hash: Hash, s: GrantState, op: Op)
    requires op.CreatePairing? && Complaint(op).None? && Fault(s).None?
    ensures var n := Take(hash, s, op).0; hash(op.code) in n.pairings && n.pairings[hash(op.code)] == NewPairing(op)
  {
    Taken(hash, s, op);
  }

  /** Any offered code does, redeemed in time for an actor whose id is not blank and not valid. */
  lemma OfferedCodeBricks(hash: Hash, s: GrantState, offer: Op, redeem: Op)
    requires Fault(s).None? && offer.CreatePairing? && Complaint(offer).None?
    requires redeem.Redeem? && redeem.code == offer.code && Early(redeem).None? && !ValidId(redeem.actorId)
    requires redeem.now < offer.now + offer.pairingTtl && redeem.now + offer.grantTtl <= U64_MAX
    ensures var offered := Take(hash, s, offer).0;
            var (n, r) := Take(hash, offered, redeem);
            Fault(offered).None? && r.Ok? && Fault(n).Some?
  {
    OfferStands(hash, s, offer);
    GoodGrantReads(hash, s, offer);
    BadGrantBricks(hash, Take(hash, s, offer).0, redeem);
    RedeemExactly(hash, Take(hash, s, offer).0, redeem);
  }

  const SAMPLE_ACTOR := "operator\U{0007}"
  const SAMPLE_REDEEM := Redeem("code", SAMPLE_ACTOR, 1, "token", "grant")

  /** A file in which a code waits to be redeemed. */
  function SampleState(hash: Hash): GrantState {
    GrantState(1, "device", map[], map[hash("code") := Pairing("pairing", {"mcp"}, 0, 1000, 1000)], map[])
  }

  lemma SampleActorBad()
    ensures !Blank(SAMPLE_ACTOR) && !ValidId(SAMPLE_ACTOR)
  {
    assert SAMPLE_ACTOR[0] in SAMPLE_ACTOR && !IsWhitespace(SAMPLE_ACTOR[0]);
    assert SAMPLE_ACTOR[8] in SAMPLE_ACTOR && IsControl(SAMPLE_ACTOR[8]);
  }

  lemma RedeemPassesEarly(op: Op)
    requires op.Redeem? && |op.code| > 0 && !Blank(op.actorId)
    ensures Early(op).None?
  {}

  lemma SampleWaits(hash: Hash, op: Op)
    requires op.Redeem? && op.code == "code" && op.now == 1
    ensures var s := SampleState(hash);
            && hash(op.code) in s.pairings && s.pairings[hash(op.code)].expiresAt > op.now
            && op.now + s.pairings[hash(op.code)].grantTtl <= U64_MAX
  {}

  lemma SampleBricks(hash: Hash)
    ensures Bricks(hash, SampleState(hash), SAMPLE_REDEEM)
  {
    SampleActorBad();
    RedeemPassesEarly(SAMPLE_REDEEM);
    SampleWaits(hash, SAMPLE_REDEEM);
  }

  /** It happens: a code that waits, redeemed for an actor with a control character in its id. */
  lemma ControlCharacterBricks(hash: Hash)
    ensures Fault(SampleState(hash)).None? && Fault(Take(hash, SampleState(hash), SAMPLE_REDEEM).0).Some?
  {
    ReadableExactly(SampleState(hash));
    SampleBricks(hash);
    BadGrantBricks(hash, SampleState(hash), SAMPLE_REDEEM);
  }

  /** Once a file is not readable, no call that needs it succeeds and none changes it. */
  lemma {:induction false} BrickedForGood(hash: Hash, s: GrantState, ops: seq<Op>, op: Op)
    requires Fault(s).Some? && Early(op).None?
    ensures Reached(hash, s, ops) == s && Take(hash, Reached(hash, s, ops), op) == (s, Err(Fault(s).value))
  {
    if ops == [] {
    } else {
      var n := |ops| - 1;
      BrickedForGood(hash, s, ops[..n], op);
      Taken(hash, s, ops[n]);
    }
  }

  // --------------------------------------------------------------- the life of one code

  predicate Offers(hash: Hash, op: Op, h: string) {
    op.CreatePairing? && hash(op.code) == h
  }

  predicate Redeems(hash: Hash, op: Op, h: string) {
    op.Redeem? && hash(op.code) == h
  }

  /** How many codes with this hash were offered; how many grants were had for them. */
  function Offered(hash: Hash, s: GrantState, ops: seq<Op>, h: string): nat {
    if ops == [] then 0
    else
      var n := |ops| - 1;
      var before := Reached(hash, s, ops[..n]);
      Offered(hash, s, ops[..n], h) + if Offers(hash, ops[n], h) && Take(hash, before, ops[n]).1.Ok? then 1 else 0
  }

  function RedeemedTimes(hash: Hash, s: GrantState, ops: seq<Op>, h: string): nat {
    if ops == [] then 0
    else
      var n := |ops| - 1;
      var before := Reached(hash, s, ops[..n]);
      RedeemedTimes(hash, s, ops[..n], h) + if Redeems(hash, ops[n], h) && Take(hash, before, ops[n]).1.Ok? then 1 else 0
  }

  function Waits(s: GrantState, h: string): nat {
    if h in s.pairings then 1 else 0
  }

  lemma CodeStep(hash: Hash, s: GrantState, op: Op, h: string)
    ensures var (n, r) := Take(hash, s, op);
            && (Redeems(hash, op, h) && r.Ok? ==> h in s.pairings && h !in n.pairings)
            && (h in n.pairings && h !in s.pairings ==> Offers(hash, op, h) && r.Ok?)
  {
    Taken(hash, s, op);
  }

  /** A code buys at most one grant: over any calls, as many at most as codes of that hash were offered. */
  lemma {:induction false} CodesBuyOnce(hash: Hash, s: GrantState, ops: seq<Op>, h: string)
    ensures RedeemedTimes(hash, s, ops, h) + Waits(Reached(hash, s, ops), h) <= Offered(hash, s, ops, h) + Waits(s, h)
  {
    if ops != [] {
      var n := |ops| - 1;
      CodesBuyOnce(hash, s, ops[..n], h);
      CodeStep(hash, Reached(hash, s, ops[..n]), ops[n], h);
    }
  }

  // ---------------------------------------------------------- what each call comes to

  /** Who gets in: exactly whoever holds the token of a grant that is unrevoked, unexpired and for this scope. */
  lemma ValidateExactly(hash: Hash, s: GrantState, op: Op)
    requires op.Validate? && Early(op).None? && Fault(s).None?
    ensures var (n, r) := Take(hash, s, op);
            var h := hash(op.token);
            && n == s
            && (r.Ok? <==> && h in s.grants && !s.grants[h].revoked && op.now < s.grants[h].expiresAt
                           && (op.requiredScope in s.grants[h].scopes || "*" in s.grants[h].scopes))
            && (r.Ok? ==> r.value == Accepted(s.grants[h]))
  {
    Taken(hash, s, op);
  }

  /** The entries with any text in them. */
  ghost function Texts(values: set<string>): set<string> {
    set v | v in values && HasText(v)
  }

  lemma NonBlankTexts(values: set<string>)
    ensures NonBlank(values) == Texts(values)
  {
    forall v | v in values
      ensures Blank(v) <==> !HasText(v)
    {
      BlankExactly(v);
    }
  }

  lemma ValidIdsExactly(ids: set<string>)
    ensures AllValidIds(ids) <==> forall id | id in ids :: ProperId(id)
  {
    forall id | id in ids
      ensures ValidId(id) <==> ProperId(id)
    {
      ValidIdExactly(id);
    }
  }

  lemma IssueComplaints(op: Op)
    requires op.Issue?
    ensures Complaint(op) == (if op.ttl == 0 then Some(InvalidTtl)
                              else if !ProperId(op.organizationId) then Some(InvalidTenant)
                              else if !ProperId(op.actorId) then Some(InvalidActor)
                              else if exists w :: w in Texts(op.workspaceIds) && !ProperId(w) then Some(InvalidTenant)
                              else if Texts(op.scopes) == {} then Some(NoScopes)
                              else if op.now + op.ttl > U64_MAX then Some(InvalidTtl)
                              else None)
  {
    NonBlankTexts(op.workspaceIds);
    NonBlankTexts(op.scopes);
    ValidIdsExactly(Texts(op.workspaceIds));
    ValidIdExactly(op.organizationId);
    ValidIdExactly(op.actorId);
  }

  /** When a token is given out, and for what: exactly what was asked for, less the blank workspaces and scopes. */
  lemma IssueExactly(hash: Hash, s: GrantState, op: Op)
    requires op.Issue? && Fault(s).None?
    ensures var (n, r) := Take(hash, s, op);
            && (r.Ok? <==>
                  && op.ttl > 0 && ProperId(op.organizationId) && ProperId(op.actorId)
                  && (forall w | w in op.workspaceIds && HasText(w) :: ProperId(w))
                  && (exists scope :: scope in op.scopes && HasText(scope))
                  && op.now + op.ttl <= U64_MAX)
            && (r.Err? ==> n == s)
            && (r.Ok? ==>
                 && n.grants.Keys == s.grants.Keys + {hash(op.token)}
                 && n == s.(grants := s.grants[hash(op.token) := n.grants[hash(op.token)]])
                 && r.value == Issued(op.token, n.grants[hash(op.token)])
                 && n.grants[hash(op.token)]
                    == Grant(op.grantId, op.organizationId, op.actorId, Texts(op.workspaceIds), Texts(op.scopes),
                             op.now, op.now + op.ttl, false))
  {
    Taken(hash, s, op);
    IssueComplaints(op);
    NonBlankTexts(op.workspaceIds);
    NonBlankTexts(op.scopes);
    SomeText(op.scopes);
  }

  lemma SomeText(values: set<string>)
    ensures Texts(values) != {} <==> exists v :: v in values && HasText(v)
  {
    if v :| v in values && HasText(v) {
      assert v in Texts(values);
    }
    if Texts(values) != {} {
      var v :| v in Texts(values);
    }
  }

  /** When a code is offered, and for what. */
  lemma OfferExactly(hash: Hash, s: GrantState, op: Op)
    requires op.CreatePairing? && Fault(s).None?
    ensures var (n, r) := Take(hash, s, op);
            var scoped := exists scope :: scope in op.scopes && HasText(scope);
            && (r.Ok? <==> op.pairingTtl > 0 && op.grantTtl > 0 && scoped && op.now + op.pairingTtl <= U64_MAX)
            && (r.Err? ==> n == s && r.error == if op.pairingTtl > 0 && op.grantTtl > 0 && !scoped then NoScopes else InvalidTtl)
            && (r.Ok? ==>
                 && var pairing := Pairing(op.pairingId, Texts(op.scopes), op.now, op.now + op.pairingTtl, op.grantTtl);
                    n == s.(pairings := s.pairings[hash(op.code) := pairing]) && r.value == Paired(op.code, pairing))
  {
    Taken(hash, s, op);
    NonBlankTexts(op.scopes);
    SomeText(op.scopes);
  }

  /** Who may register, and which other calls are refused before the file is looked at. */
  lemma ComplaintsExactly(op: Op)
    ensures op.Register? ==> Complaint(op) == if HasText(op.clientId) && HasText(op.client.clientName)
                                                 && |op.client.redirectUris| > 0 then None else Some(Unauthorized)
    ensures op.Redeem? ==> Complaint(op) == if |op.code| > 0 && HasText(op.actorId) then None else Some(Unauthorized)
    ensures op.Validate? ==>
              Complaint(op) == if |op.token| > 0 && |op.requiredScope| > 0 then None else Some(Unauthorized)
    ensures op.Revoke? ==> Complaint(op) == if op.organization.Some? && !ProperId(op.organization.value)
                                            then Some(InvalidTenant) else None
    ensures op.Expire? ==> Complaint(op) == if ProperId(op.organizationId) then None else Some(InvalidTenant)
    ensures op.RemoveWorkspace? ==> Complaint(op) == if ProperId(op.organizationId) && ProperId(op.workspaceId)
                                                     then None else Some(InvalidTenant)
    ensures op.DeviceId? || op.LookUp? || op.PruneGrants? || op.PrunePairings? ==> Complaint(op) == None
  {
    match op
    case Register(id, client) => BlankExactly(id); BlankExactly(client.clientName);
    case Redeem(_, actor, _, _, _) => BlankExactly(actor);
    case Revoke(_, organization) => if organization.Some? { ValidIdExactly(organization.value); }
    case Expire(_, organization, _) => ValidIdExactly(organization);
    case RemoveWorkspace(_, organization, workspace) => ValidIdExactly(organization); ValidIdExactly(workspace);
    case _ =>
  }

  lemma PrunedPairingMap(pairings: map<string, Pairing>, kept: map<string, Pairing>, now: u64)
    requires kept == map h | h in pairings && pairings[h].expiresAt > now :: pairings[h]
    ensures |pairings| - |kept| == |set h | h in pairings && pairings[h].expiresAt <= now|
  {
    var gone := set h | h in pairings && pairings[h].expiresAt <= now;
    assert kept.Keys + gone == pairings.Keys;
    CountRemoved(pairings, kept, gone);
  }

  lemma PrunedPairings(s: GrantState, now: u64)
    ensures var c := PrunePairingsIn(s, now).value;
            && (forall h :: h in c.0.pairings <==> h in s.pairings && now < s.pairings[h].expiresAt)
            && (forall h | h in c.0.pairings :: c.0.pairings[h] == s.pairings[h])
            && c.0 == s.(pairings := c.0.pairings)
            && c.1 == Removed(|set h | h in s.pairings && s.pairings[h].expiresAt <= now|)
  {
    PrunedPairingMap(s.pairings, PrunePairingsIn(s, now).value.0.pairings, now);
  }

  /** Pruning takes off exactly the codes that have expired, and counts them. */
  lemma PairingsPrunedExactly(hash: Hash, s: GrantState, now: u64)
    requires Fault(s).None?
    ensures var (n, r) := Take(hash, s, PrunePairings(now));
            && (forall h :: h in n.pairings <==> h in s.pairings && now < s.pairings[h].expiresAt)
            && (forall h | h in n.pairings :: n.pairings[h] == s.pairings[h])
            && n == s.(pairings := n.pairings)
            && r == Ok(Removed(|set h | h in s.pairings && s.pairings[h].expiresAt <= now|))
  {
    Taken(hash, s, PrunePairings(now));
    PrunedPairings(s, now);
  }

  /** A token that was given out is accepted for its scopes until it expires, as long as its grant is not touched. */
  lemma IssuedTokenAccepted(hash: Hash, s: GrantState, op: Op, scope: string, now: u64)
    requires op.Issue? && Fault(s).None? && op.token != "" && scope != ""
    requires scope in op.scopes && !Blank(scope)
    ensures var (n, r) := Take(hash, s, op);
            && (r.Ok? <==> Complaint(op).None?)
            && (r.Ok? ==>
                 && r.value == Issued(op.token, n.grants[hash(op.token)])
                 && n.grants == s.grants[hash(op.token) := NewGrant(op)] && n.pairings == s.pairings
                 && (Take(hash, n, Validate(op.token, scope, now)).1 == Ok(Accepted(n.grants[hash(op.token)]))
                     <==> now < op.now + op.ttl))
  {
    Taken(hash, s, op);
    if Complaint(op).None? {
      var n := Take(hash, s, op).0;
      ReadableUnlessBricked(hash, s, op);
      ValidateExactly(hash, n, Validate(op.token, scope, now));
    }
  }

  /** A code that was offered can be redeemed, for its scopes, as long as it has not expired. */
  lemma OfferedCodeRedeems(hash: Hash, s: GrantState, op: Op, redeem: Op)
    requires op.CreatePairing? && Fault(s).None? && Complaint(op).None?
    requires redeem.Redeem? && redeem.code == op.code && Early(redeem).None?
    ensures var n := Take(hash, s, op).0;
            var r := Take(hash, n, redeem).1;
            && (r.Ok? <==> redeem.now < op.now + op.pairingTtl && redeem.now + op.grantTtl <= U64_MAX)
            && (r.Ok? ==> r.value.Issued? && r.value.grant.scopes == NonBlank(op.scopes))
  {
    Taken(hash, s, op);
    var n := Take(hash, s, op).0;
    assert !Bricks(hash, s, op);
    ReadableUnlessBricked(hash, s, op);
    RedeemExactly(hash, n, redeem);
  }

  /** Everything but the grant at `h` is as it was. */
  ghost predicate OnlyGrantChanged(s: GrantState, n: GrantState, h: string) {
    && n.version == s.version && n.deviceId == s.deviceId && n.pairings == s.pairings && n.clients == s.clients
    && n.grants.Keys == s.grants.Keys && forall k | k in s.grants && k != h :: n.grants[k] == s.grants[k]
  }

  function Target(op: Op): (string, Option<string>)
    requires op.Revoke? || op.Expire? || op.RemoveWorkspace?
  {
    if op.Revoke? then (op.grantId, op.organization) else (op.grantId, Some(op.organizationId))
  }

  /** The grant that the call names, by its id and, where it says one, its organisation. */
  predicate Addresses(op: Op, g: Grant)
    requires op.Revoke? || op.Expire? || op.RemoveWorkspace?
  {
    match op
    case Revoke(id, None) => g.grantId == id
    case Revoke(id, Some(organization)) => g.grantId == id && g.organizationId == organization
    case Expire(id, organization, _) => g.grantId == id && g.organizationId == organization
    case RemoveWorkspace(id, organization, _) => g.grantId == id && g.organizationId == organization
  }

  /** What revoking, moving an expiry and taking a workspace away make of the grant they hit. */
  ghost predicate ChangedGrant(op: Op, g: Grant, later: Grant)
    requires op.Revoke? || op.Expire? || op.RemoveWorkspace?
  {
    match op
    case Revoke(_, _) => later == g.(revoked := true)
    case Expire(_, _, expiresAt) => later == g.(expiresAt := expiresAt) && g.issuedAt <= expiresAt
    case RemoveWorkspace(_, _, workspace) => later == g.(workspaceIds := g.workspaceIds - {workspace})
  }

  lemma NamedApplies(hash: Hash, s: GrantState, op: Op, h: string)
    requires op.Revoke? || op.Expire? || op.RemoveWorkspace?
    requires DistinctIds(s) && h in s.grants && Addresses(op, s.grants[h])
    ensures var c := Apply(hash, s, op);
            && (c.Err? <==> op.Expire? && op.expiresAt < s.grants[h].issuedAt)
            && (c.Err? ==> c.error == InvalidTtl)
            && (c.Ok? ==>
                 && OnlyGrantChanged(s, c.value.0, h) && ChangedGrant(op, s.grants[h], c.value.0.grants[h])
                 && c.value.1 == Changed(op.RemoveWorkspace? ==> op.workspaceId in s.grants[h].workspaceIds))
  {
    assert Find(s, Target(op).0, Target(op).1) == Some(h);
  }

  /**
   * Revoking, moving an expiry and taking a workspace away hit the one grant of that id (and organisation), or
   * answer that there is none; they touch nothing else.
   */
  lemma NamedChangeExactly(hash: Hash, s: GrantState, op: Op, h: string)
    requires op.Revoke? || op.Expire? || op.RemoveWorkspace?
    requires Early(op).None? && Fault(s).None? && DistinctIds(s)
    requires h in s.grants && Addresses(op, s.grants[h])
    ensures var (n, r) := Take(hash, s, op);
            && (r.Err? <==> op.Expire? && op.expiresAt < s.grants[h].issuedAt)
            && (r.Err? ==> n == s && r.error == InvalidTtl)
            && (r.Ok? ==>
                 && OnlyGrantChanged(s, n, h) && ChangedGrant(op, s.grants[h], n.grants[h])
                 && r.value == Changed(op.RemoveWorkspace? ==> op.workspaceId in s.grants[h].workspaceIds))
  {
    NamedApplies(hash, s, op, h);
    Taken(hash, s, op);
  }

  lemma NamedChangeMisses(hash: Hash, s: GrantState, op: Op)
    requires op.Revoke? || op.Expire? || op.RemoveWorkspace?
    requires Early(op).None? && Fault(s).None?
    requires forall h | h in s.grants :: !Addresses(op, s.grants[h])
    ensures Take(hash, s, op) == (s, Ok(Changed(false)))
  {
    Taken(hash, s, op);
    assert Find(s, Target(op).0, Target(op).1) == None;
  }

  lemma {:induction false} CountRemoved<V>(before: map<string, V>, kept: map<string, V>, gone: set<string>)
    requires kept.Keys + gone == before.Keys && kept.Keys !! gone
    ensures |before| == |kept| + |gone|
  {
    assert |before.Keys| == |before| && |kept.Keys| == |kept|;
  }

  predicate Lives(g: Grant, now: u64) {
    now < g.expiresAt && !g.revoked
  }

  ghost predicate Pruned(s: GrantState, n: GrantState, now: u64) {
    && (forall h :: h in n.grants <==> h in s.grants && Lives(s.grants[h], now))
    && (forall h | h in n.grants :: n.grants[h] == s.grants[h])
    && n == s.(grants := n.grants)
  }

  lemma PrunedMap(grants: map<string, Grant>, kept: map<string, Grant>, now: u64)
    requires kept == map h | h in grants && grants[h].expiresAt > now && !grants[h].revoked :: grants[h]
    ensures |grants| - |kept| == |set h | h in grants && !Lives(grants[h], now)|
  {
    var gone := set h | h in grants && !Lives(grants[h], now);
    assert kept.Keys + gone == grants.Keys;
    CountRemoved(grants, kept, gone);
  }

  lemma PrunedGrants(s: GrantState, now: u64)
    ensures var c := PruneGrantsIn(s, now).value;
            Pruned(s, c.0, now) && c.1 == Removed(|set h | h in s.grants && !Lives(s.grants[h], now)|)
  {
    PrunedMap(s.grants, PruneGrantsIn(s, now).value.0.grants, now);
  }

  /** Pruning keeps exactly the grants that could still be used, as they are, and counts the others. */
  lemma PruneExactly(hash: Hash, s: GrantState, now: u64)
    requires Fault(s).None?
    ensures var (n, r) := Take(hash, s, PruneGrants(now));
            Pruned(s, n, now) && r == Ok(Removed(|set h | h in s.grants && !Lives(s.grants[h], now)|))
  {
    PrunedGrants(s, now);
    Taken(hash, s, PruneGrants(now));
  }

  lemma ValidateTakes(hash: Hash, s: GrantState, token: string, scope: string, now: u64)
    requires Fault(s).None? && token != "" && scope != ""
    ensures Take(hash, s, Validate(token, scope, now)).1
         == match ValidateIn(hash, s, token, scope, now) case Err(e) => Err(e) case Ok(g) => Ok(Accepted(g))
  {
    Taken(hash, s, Validate(token, scope, now));
  }

  lemma PrunedValidates(hash: Hash, s: GrantState, n: GrantState, pruned: u64, token: string, scope: string, now: u64)
    requires Pruned(s, n, pruned) && pruned <= now
    ensures ValidateIn(hash, n, token, scope, now) == ValidateIn(hash, s, token, scope, now)
  {}

  /** Pruning never changes who gets in, now or later. */
  lemma PruningLocksNobodyOut(hash: Hash, s: GrantState, pruned: u64, token: string, scope: string, now: u64)
    requires Fault(s).None? && pruned <= now && token != "" && scope != ""
    ensures Take(hash, Take(hash, s, PruneGrants(pruned)).0, Validate(token, scope, now)).1
         == Take(hash, s, Validate(token, scope, now)).1
  {
    var n := Take(hash, s, PruneGrants(pruned)).0;
    PruneExactly(hash, s, pruned);
    assert !Bricks(hash, s, PruneGrants(pruned));
    ReadableUnlessBricked(hash, s, PruneGrants(pruned));
    PrunedValidates(hash, s, n, pruned, token, scope, now);
    ValidateTakes(hash, n, token, scope, now);
    ValidateTakes(hash, s, token, scope, now);
  }

  /** A registered client is found as registered, whatever else was registered before. */
  lemma RegisteredIsFound(hash: Hash, s: GrantState, op: Op)
    requires op.Register? && Fault(s).None? && Complaint(op).None?
    ensures var n := Take(hash, s, op).0;
            && Take(hash, n, LookUp(op.clientId)).1 == Ok(Found(Some(op.client)))
            && forall id | id != op.clientId && id != "" :: Take(hash, n, LookUp(id)).1 == Take(hash, s, LookUp(id)).1
  {
    Taken(hash, s, op);
    var n := Take(hash, s, op).0;
    assert op.clientId != "" by {
      assert Blank("");
    }
    ReadableUnlessBricked(hash, s, op);
    Taken(hash, n, LookUp(op.clientId));
    forall id | id != op.clientId && id != ""
      ensures Take(hash, n, LookUp(id)).1 == Take(hash, s, LookUp(id)).1
    {
      Taken(hash, n, LookUp(id));
      Taken(hash, s, LookUp(id));
    }
  }

  // ------------------------------------------------------ every instance, and its callers

  predicate Minting(op: Op) {
    op.Issue? || op.Redeem?
  }

  /** Tokens and grant ids are random: none that is given out was in the file, or given out before. */
  ghost predicate Unrepeated(hash: Hash, base: GrantState, ops: seq<Op>) {
    && DistinctIds(base)
    && (forall i | 0 <= i < |ops| && Minting(ops[i]) ::
          hash(ops[i].token) !in base.grants && FreshGrant(hash, Reached(hash, base, ops[..i]), ops[i]))
    && (forall i, j | 0 <= i < j < |ops| && Minting(ops[i]) && Minting(ops[j]) :: hash(ops[i].token) != hash(ops[j].token))
  }

  lemma {:induction false} IdsAlwaysDistinct(hash: Hash, base: GrantState, ops: seq<Op>, n: nat)
    requires Unrepeated(hash, base, ops) && n <= |ops|
    ensures DistinctIds(Reached(hash, base, ops[..n]))
  {
    if n > 0 {
      IdsAlwaysDistinct(hash, base, ops, n - 1);
      assert ops[..n] == ops[..n - 1] + [ops[n - 1]];
      AfterStep(GrantSpec(hash), base, ops[..n - 1], ops[n - 1]);
      IdsStayDistinct(hash, Reached(hash, base, ops[..n - 1]), ops[n - 1]);
    }
  }

  /** A hash that is in the file is not given out again. */
  lemma HashNotReused(hash: Hash, base: GrantState, ops: seq<Op>, n: nat, h: string)
    requires Unrepeated(hash, base, ops) && n <= |ops| && h in Reached(hash, base, ops[..n]).grants
    ensures forall i | n <= i < |ops| :: !Mints(hash, ops[i], h)
  {
    if forall op | op in ops[..n] :: !Mints(hash, op, h) {
      GrantsOnlyShrink(hash, base, ops[..n], h);
    } else {
      var i :| 0 <= i < n && Mints(hash, ops[i], h);
    }
  }

  /** The revocation took the very grant the token is for. */
  lemma RevokeHits(hash: Hash, s: GrantState, op: Op, h: string)
    requires op.Revoke? && DistinctIds(s) && h in s.grants && Named(s.grants[h], op.grantId, op.organization)
    requires Take(hash, s, op).1.Ok?
    ensures var n := Take(hash, s, op).0; h in n.grants && n.grants[h].revoked
  {
    Taken(hash, s, op);
  }

  lemma RevokedAfter(hash: Hash, base: GrantState, ops: seq<Op>, i: nat, h: string)
    requires Unrepeated(hash, base, ops) && i < |ops| && ops[i].Revoke?
    requires var s := Reached(hash, base, ops[..i]);
             && h in s.grants && Named(s.grants[h], ops[i].grantId, ops[i].organization) && Take(hash, s, ops[i]).1.Ok?
    ensures var n := Reached(hash, base, ops[..i + 1]); h in n.grants && n.grants[h].revoked
  {
    IdsAlwaysDistinct(hash, base, ops, i);
    RevokeHits(hash, Reached(hash, base, ops[..i]), ops[i], h);
    assert ops[..i + 1] == ops[..i] + [ops[i]];
    AfterStep(GrantSpec(hash), base, ops[..i], ops[i]);
  }

  /** The log from the revocation at `i` up to the use at `j`. */
  lemma RevokedInLog(hash: Hash, base: GrantState, ops: seq<Op>, i: nat, j: nat, use: Op)
    requires Unrepeated(hash, base, ops) && i < j <= |ops| && ops[i].Revoke? && use.Validate?
    requires var s := Reached(hash, base, ops[..i]);
             && hash(use.token) in s.grants && Named(s.grants[hash(use.token)], ops[i].grantId, ops[i].organization)
             && Take(hash, s, ops[i]).1.Ok?
    ensures Take(hash, Reached(hash, base, ops[..j]), use).1.Err?
  {
    var h := hash(use.token);
    RevokedAfter(hash, base, ops, i, h);
    HashNotReused(hash, base, ops, i, h);
    LogContinues(hash, base, ops, i + 1, j);
    forall op | op in ops[i + 1..j]
      ensures !Mints(hash, op, h)
    {
      var k :| i + 1 <= k < j && ops[k] == op;
    }
    RevokedForGood(hash, Reached(hash, base, ops[..i + 1]), ops[i + 1..j], use.token, use.requiredScope, use.now);
  }

  lemma LogContinues(hash: Hash, base: GrantState, ops: seq<Op>, i: nat, j: nat)
    requires i <= j <= |ops|
    ensures Reached(hash, base, ops[..j]) == Reached(hash, Reached(hash, base, ops[..i]), ops[i..j])
  {
    assert ops[..j] == ops[..i] + ops[i..j];
    AfterConcat(GrantSpec(hash), base, ops[..i], ops[i..j]);
  }

  /** When the revocation was made, its id and organisation named the grant of this token. */
  ghost predicate TokenOf(hash: Hash, base: GrantState, ops: seq<Op>, revoke: Reply<Op, Answer>, token: string)
    requires revoke.op.Revoke?
  {
    revoke.at.Some? && revoke.at.value <= |ops| ==>
      var s := Reached(hash, base, ops[..revoke.at.value]);
      hash(token) in s.grants && Named(s.grants[hash(token)], revoke.op.grantId, revoke.op.organization)
  }

  /**
   * Whatever instances are running, interleaved and crashing as they like and with copies however stale: once
   * one of them has answered that a grant is revoked, no call made afterwards on any of them accepts its token.
   */
  lemma RevokedForEveryInstance(
    hash: Hash, base: GrantState, w: World<GrantState, Op, Answer>, actions: seq<Action<Op>>,
    revoke: Reply<Op, Answer>, use: Reply<Op, Answer>
  )
    requires Settled(base, w)
    requires var n := Run(GrantSpec(hash), w, actions);
             revoke in n.replies && use in n.replies && Unrepeated(hash, base, Ops(n.log))
    requires revoke.op.Revoke? && revoke.result.Ok? && use.op.Validate? && revoke.ended <= use.began
    requires TokenOf(hash, base, Ops(Run(GrantSpec(hash), w, actions).log), revoke, use.op.token)
    ensures use.result.Err?
  {
    var spec := GrantSpec(hash);
    var n := Run(spec, w, actions);
    InstancesAreOneStore(spec, base, w, actions);
    if use.at.Some? {
      ReplyIsAtomic(spec, base, w, actions, revoke);
      ReplyIsAtomic(spec, base, w, actions, use);
      RevokedInLog(hash, base, Ops(n.log), revoke.at.value, use.at.value, use.op);
    }
  }

  // ----------------------------------------------------------------------- the store

  predicate StillOfUse(g: Grant, now: u64) {
    g.expiresAt > now && !g.revoked
  }

  lemma KeptOfUse(grants: map<string, Grant>, kept: map<string, Grant>, keys: seq<string>, now: u64)
    requires forall h | h in grants :: h in keys
    requires forall h | h in kept :: h in grants && kept[h] == grants[h] && StillOfUse(kept[h], now)
    requires forall h | h in keys && h in grants && StillOfUse(grants[h], now) :: h in kept
    ensures kept == map h | h in grants && grants[h].expiresAt > now && !grants[h].revoked :: grants[h]
  {}

  /** In the order of the map the first grant of this id is the one that is found. */
  lemma FirstNamedIsFound(s: GrantState, grantId: string, organization: Option<string>, i: nat)
    requires i < |Sorted(s.grants.Keys)|
    requires Named(s.grants[Sorted(s.grants.Keys)[i]], grantId, organization)
    requires forall j | 0 <= j < i :: !Named(s.grants[Sorted(s.grants.Keys)[j]], grantId, organization)
    ensures Find(s, grantId, organization) == Some(Sorted(s.grants.Keys)[i])
  {
    var keys := Sorted(s.grants.Keys);
    var matching := set h | h in s.grants && Named(s.grants[h], grantId, organization);
    SortedAscends(s.grants.Keys);
    assert keys[i] in matching;
    forall k | k in matching
      ensures LexLe(keys[i], k)
    {
      var j :| 0 <= j < |keys| && keys[j] == k;
      if j == i { LexTotal(k, k); }
    }
    LeastUnique(Least(matching), keys[i], matching);
  }

  /** One instance: the shared file and its own copy of what was last read from it. */
  class GrantStore {
    const hash: Hash
    const file: StateFile<GrantState>
    var state: GrantState

    constructor (hash: Hash, file: StateFile<GrantState>, state: GrantState)
      ensures this.hash == hash && this.file == file && this.state == state
    {
      this.hash := hash;
      this.file := file;
      this.state := state;
    }

    static method Open(hash: Hash, file: StateFile<GrantState>, deviceId: string) returns (r: Result<GrantStore, AuthError>)
      modifies file
      ensures file.contents == if old(file.contents).None? then Some(Empty(deviceId)) else old(file.contents)
      ensures r.Ok? <==> old(file.contents).None? || Fault(old(file.contents).value).None?
      ensures r.Ok? ==> fresh(r.value) && r.value.file == file && r.value.hash == hash && Some(r.value.state) == file.contents
      ensures r.Err? ==> Fault(old(file.contents).value) == Some(r.error)
    {
      if file.contents.None? {
        file.contents := Some(Empty(deviceId));
      } else if Fault(file.contents.value).Some? {
        return Err(Fault(file.contents.value).value);
      }
      var store := new GrantStore(hash, file, file.contents.value);
      r := Ok(store);
    }

    /** The call did to the file, and answered, what one call on the atomic store does. */
    ghost predicate Serves(faults: Faults, op: Op, before: Option<GrantState>, r: Result<Answer, AuthError>)
      reads file
      requires before.Some?
    {
      var served := Served(GrantSpec(hash), faults, before.value, op);
      file.contents == Some(served.0) && r == served.1
    }

    method Refresh(faults: Faults) returns (refused: Option<AuthError>)
      requires file.contents.Some?
      modifies this`state
      ensures refused == First(faults.lock, First(faults.read, Fault(file.contents.value)))
      ensures state == if refused.None? then file.contents.value else old(state)
    {
      if faults.lock.Some? {
        return faults.lock;
      }
      if faults.read.Some? {
        return faults.read;
      }
      var held := file.contents.value;
      refused := Fault(held);
      if refused.None? {
        state := held;
      }
    }

    /** Every change: on the state as it is in the file now, and written back only if the change succeeds. */
    method MutateState(faults: Faults, mutate: GrantState -> Change) returns (r: Result<Answer, AuthError>)
      requires file.contents.Some?
      modifies this`state, file
      ensures var (after, answer) := UnderLock(faults, Fault(old(file.contents).value), old(file.contents).value, mutate);
              file.contents == Some(after) && r == answer && (r.Ok? ==> state == after)
    {
      var refused := Refresh(faults);
      if refused.Some? {
        return Err(refused.value);
      }
      r := Publish(mutate(state), faults);
    }

    /** A changed copy becomes the file and then the state; a change that fails, or a write that does, is dropped. */
    method Publish(change: Change, faults: Faults) returns (r: Result<Answer, AuthError>)
      requires file.contents.Some?
      modifies this`state, file
      ensures r == if change.Err? then Err(change.error)
                   else if faults.write.Some? then Err(faults.write.value) else Ok(change.value.1)
      ensures file.contents == if r.Ok? then Some(change.value.0) else old(file.contents)
      ensures r.Ok? ==> state == change.value.0
    {
      if change.Err? {
        return Err(change.error);
      }
      if faults.write.Some? {
        return Err(faults.write.value);
      }
      file.contents := Some(change.value.0);
      state := change.value.0;
      r := Ok(change.value.1);
    }

    /** The first grant of this id, in the order of the map. */
    method FindGrant(copy: GrantState, grantId: string, organization: Option<string>) returns (h: Option<string>)
      ensures h == Find(copy, grantId, organization)
    {
      var keys := Sorted(copy.grants.Keys);
      var i := 0;
      while i < |keys|
        invariant 0 <= i <= |keys|
        invariant forall j | 0 <= j < i :: !Named(copy.grants[keys[j]], grantId, organization)
      {
        if Named(copy.grants[keys[i]], grantId, organization) {
          FirstNamedIsFound(copy, grantId, organization, i);
          return Some(keys[i]);
        }
        i := i + 1;
      }
      h := None;
    }

    method RevokeInCopy(copy: GrantState, grantId: string, organization: Option<string>) returns (change: Change)
      ensures change == RevokeIn(copy, grantId, organization)
    {
      var found := FindGrant(copy, grantId, organization);
      if found.None? {
        return Ok((copy, Changed(false)));
      }
      var record := copy.grants[found.value];
      record := record.(revoked := true);
      change := Ok((copy.(grants := copy.grants[found.value := record]), Changed(true)));
    }

    method ExpireInCopy(copy: GrantState, grantId: string, organizationId: string, expiresAt: u64) returns (change: Change)
      ensures change == ExpireIn(copy, grantId, organizationId, expiresAt)
    {
      var found := FindGrant(copy, grantId, Some(organizationId));
      if found.None? {
        return Ok((copy, Changed(false)));
      }
      var record := copy.grants[found.value];
      if expiresAt < record.issuedAt {
        return Err(InvalidTtl);
      }
      record := record.(expiresAt := expiresAt);
      change := Ok((copy.(grants := copy.grants[found.value := record]), Changed(true)));
    }

    method RemoveWorkspaceInCopy(copy: GrantState, grantId: string, organizationId: string, workspaceId: string)
      returns (change: Change)
      ensures change == RemoveWorkspaceIn(copy, grantId, organizationId, workspaceId)
    {
      var found := FindGrant(copy, grantId, Some(organizationId));
      if found.None? {
        return Ok((copy, Changed(false)));
      }
      var record := copy.grants[found.value];
      var removed := workspaceId in record.workspaceIds;
      record := record.(workspaceIds := record.workspaceIds - {workspaceId});
      change := Ok((copy.(grants := copy.grants[found.value := record]), Changed(removed)));
    }

    /** An expired code is taken off the copy, which the error then drops. */
    method RedeemInCopy(copy: GrantState, code: string, actorId: string, now: u64, token: string, grantId: string)
      returns (change: Change)
      ensures change == RedeemIn(hash, copy, code, actorId, now, token, grantId)
    {
      var next := copy;
      var codeHash := hash(code);
      if codeHash !in next.pairings {
        return Err(Unauthorized);
      }
      var pairing := next.pairings[codeHash];
      if pairing.expiresAt <= now {
        next := next.(pairings := next.pairings - {codeHash});
        return Err(Unauthorized);
      }
      var expiresAt := CheckedAdd(now, pairing.grantTtl);
      if expiresAt.None? {
        return Err(InvalidTtl);
      }
      var record := Grant(grantId, "local", actorId, {}, pairing.scopes, now, expiresAt.value, false);
      next := next.(pairings := next.pairings - {codeHash});
      next := next.(grants := next.grants[hash(token) := record]);
      change := Ok((next, Issued(token, record)));
    }

    /** Every grant is looked at once, and kept if it is still of use. */
    method KeptGrants(grants: map<string, Grant>, now: u64) returns (kept: map<string, Grant>)
      ensures kept == map h | h in grants && grants[h].expiresAt > now && !grants[h].revoked :: grants[h]
    {
      var keys := Sorted(grants.Keys);
      kept := map[];
      var i := 0;
      while i < |keys|
        invariant 0 <= i <= |keys|
        invariant forall h | h in kept :: h in grants && kept[h] == grants[h] && StillOfUse(kept[h], now)
        invariant forall h | h in keys[..i] && StillOfUse(grants[h], now) :: h in kept
      {
        if StillOfUse(grants[keys[i]], now) {
          kept := kept[keys[i] := grants[keys[i]]];
        }
        assert keys[..i + 1] == keys[..i] + [keys[i]];
        i := i + 1;
      }
      assert keys[..i] == keys;
      KeptOfUse(grants, kept, keys, now);
    }

    method PruneGrantsInCopy(copy: GrantState, now: u64) returns (change: Change)
      ensures change == PruneGrantsIn(copy, now)
    {
      var kept := KeptGrants(copy.grants, now);
      change := Ok((copy.(grants := kept), Removed(|copy.grants| - |kept|)));
    }

    method DeviceId(faults: Faults) returns (r: Result<Answer, AuthError>)
      requires file.contents.Some?
      modifies this`state
      ensures Serves(faults.(write := None), Op.DeviceId, old(file.contents), r)
    {
      var refused := Refresh(faults);
      r := if refused.Some? then Err(refused.value) else Ok(Device(state.deviceId));
    }

    method RegisterOAuthClient(clientId: string, client: Client, faults: Faults) returns (r: Result<Answer, AuthError>)
      requires file.contents.Some?
      modifies this`state, file
      ensures Serves(faults, Op.Register(clientId, client), old(file.contents), r)
    {
      if Blank(clientId) || Blank(client.clientName) || client.redirectUris == [] {
        return Err(Unauthorized);
      }
      r := MutateState(faults, (s: GrantState) => Ok((s.(clients := s.clients[clientId := client]), Registered(client))));
    }

    method OAuthClient(clientId: string, faults: Faults) returns (r: Result<Answer, AuthError>)
      requires file.contents.Some?
      modifies this`state
      ensures Serves(faults.(write := None), Op.LookUp(clientId), old(file.contents), r)
    {
      if clientId == "" {
        return Ok(Found(None));
      }
      var refused := Refresh(faults);
      if refused.Some? {
        return Err(refused.value);
      }
      r := Ok(Found(if clientId in state.clients then Some(state.clients[clientId]) else None));
    }

    method IssueForTenant(organizationId: string, actorId: string, workspaceIds: set<string>, scopes: set<string>,
                          ttl: u64, now: u64, token: string, grantId: string, faults: Faults)
      returns (r: Result<Answer, AuthError>)
      requires file.contents.Some?
      modifies this`state, file
      ensures Serves(faults, Op.Issue(organizationId, actorId, workspaceIds, scopes, ttl, now, token, grantId),
                     old(file.contents), r)
    {
      if ttl == 0 {
        return Err(InvalidTtl);
      }
      if !ValidId(organizationId) {
        return Err(InvalidTenant);
      }
      if !ValidId(actorId) {
        return Err(InvalidActor);
      }
      var workspaces, wanted := NonBlank(workspaceIds), NonBlank(scopes);
      if !AllValidIds(workspaces) {
        return Err(InvalidTenant);
      }
      if wanted == {} {
        return Err(NoScopes);
      }
      if now + ttl > U64_MAX {
        return Err(InvalidTtl);
      }
      var h := hash(token);
      var grant := Grant(grantId, organizationId, actorId, workspaces, wanted, now, now + ttl, false);
      r := MutateState(faults, (s: GrantState) => Ok((s.(grants := s.grants[h := grant]), Issued(token, grant))));
    }

    method CreatePairing(scopes: set<string>, pairingTtl: u64, grantTtl: u64, now: u64, code: string, pairingId: string,
                         faults: Faults)
      returns (r: Result<Answer, AuthError>)
      requires file.contents.Some?
      modifies this`state, file
      ensures Serves(faults, Op.CreatePairing(scopes, pairingTtl, grantTtl, now, code, pairingId), old(file.contents), r)
    {
      if pairingTtl == 0 || grantTtl == 0 {
        return Err(InvalidTtl);
      }
      var wanted := NonBlank(scopes);
      if wanted == {} {
        return Err(NoScopes);
      }
      if now + pairingTtl > U64_MAX {
        return Err(InvalidTtl);
      }
      var h := hash(code);
      var pairing := Pairing(pairingId, wanted, now, now + pairingTtl, grantTtl);
      var change := (s: GrantState) => Ok((s.(pairings := s.pairings[h := pairing]), Paired(code, pairing)));
      ServedUnderLock(hash, faults, file.contents.value, Op.CreatePairing(scopes, pairingTtl, grantTtl, now,
              code, pairingId), change);
      r := MutateState(faults, change);
    }

    method RedeemPairing(code: string, actorId: string, now: u64, token: string, grantId: string, faults: Faults)
      returns (r: Result<Answer, AuthError>)
      requires file.contents.Some?
      modifies this`state, file
      ensures Serves(faults, Op.Redeem(code, actorId, now, token, grantId), old(file.contents), r)
    {
      if code == "" || Blank(actorId) {
        return Err(Unauthorized);
      }
      ghost var hashing := hash;
      ghost var change := (s: GrantState) => RedeemIn(hashing, s, code, actorId, now, token, grantId);
      ServedUnderLock(hash, faults, file.contents.value, Op.Redeem(code, actorId, now, token, grantId), change);
      var refused := Refresh(faults);
      if refused.Some? { return Err(refused.value); }
      var changed := RedeemInCopy(state, code, actorId, now, token, grantId);
      r := Publish(changed, faults);
    }

    method Validate(token: string, requiredScope: string, now: u64, faults: Faults) returns (r: Result<Answer, AuthError>)
      requires file.contents.Some?
      modifies this`state
      ensures Serves(faults.(write := None), Op.Validate(token, requiredScope, now), old(file.contents), r)
      ensures r.Ok? ==> r.value.Accepted?
    {
      if token == "" || requiredScope == "" {
        return Err(Unauthorized);
      }
      var refused := Refresh(faults);
      if refused.Some? {
        return Err(refused.value);
      }
      if hash(token) !in state.grants {
        return Err(Unauthorized);
      }
      var grant := state.grants[hash(token)];
      if grant.revoked || grant.expiresAt <= now {
        return Err(Unauthorized);
      }
      if requiredScope !in grant.scopes && "*" !in grant.scopes {
        return Err(InsufficientScope(requiredScope));
      }
      r := Ok(Accepted(grant));
    }

    /** A grant is good for a tenant only if `Validate` accepts it, and only for its own organisation and workspaces. */
    method ValidateForTenant(token: string, requiredScope: string, organizationId: string, workspaceId: Option<string>,
                             now: u64, faults: Faults)
      returns (r: Result<Grant, AuthError>)
      requires file.contents.Some?
      modifies this`state
      ensures file.contents == old(file.contents)
      ensures var checked := Served(GrantSpec(hash), faults.(write := None), file.contents.value,
                                    Op.Validate(token, requiredScope, now)).1;
              && (checked.Err? ==> r == Err(checked.error))
              && (checked.Ok? ==>
                   && checked.value.Accepted?
                   && var grant := checked.value.grant;
                      var allowed := grant.organizationId == organizationId
                                     && (workspaceId.Some? ==> workspaceId.value in grant.workspaceIds);
                      r == if allowed then Ok(grant) else Err(Unauthorized))
    {
      var checked := Validate(token, requiredScope, now, faults);
      if checked.Err? {
        return Err(checked.error);
      }
      var grant := checked.value.grant;
      if grant.organizationId != organizationId {
        return Err(Unauthorized);
      }
      if workspaceId.Some? && workspaceId.value !in grant.workspaceIds {
        return Err(Unauthorized);
      }
      r := Ok(grant);
    }

    method RevokeMatching(grantId: string, organization: Option<string>, faults: Faults)
      returns (r: Result<Answer, AuthError>)
      requires file.contents.Some? && (organization.Some? ==> ValidId(organization.value))
      modifies this`state, file
      ensures Serves(faults, Op.Revoke(grantId, organization), old(file.contents), r)
    {
      ghost var change := (s: GrantState) => RevokeIn(s, grantId, organization);
      ServedUnderLock(hash, faults, file.contents.value, Op.Revoke(grantId, organization), change);
      var refused := Refresh(faults);
      if refused.Some? { return Err(refused.value); }
      var changed := RevokeInCopy(state, grantId, organization);
      r := Publish(changed, faults);
    }

    method RevokeForTenant(grantId: string, organizationId: string, faults: Faults) returns (r: Result<Answer, AuthError>)
      requires file.contents.Some?
      modifies this`state, file
      ensures Serves(faults, Op.Revoke(grantId, Some(organizationId)), old(file.contents), r)
    {
      if !ValidId(organizationId) {
        return Err(InvalidTenant);
      }
      r := RevokeMatching(grantId, Some(organizationId), faults);
    }

    method ExpireForTenant(grantId: string, organizationId: string, expiresAt: u64, faults: Faults)
      returns (r: Result<Answer, AuthError>)
      requires file.contents.Some?
      modifies this`state, file
      ensures Serves(faults, Op.Expire(grantId, organizationId, expiresAt), old(file.contents), r)
    {
      if !ValidId(organizationId) {
        return Err(InvalidTenant);
      }
      ghost var change := (s: GrantState) => ExpireIn(s, grantId, organizationId, expiresAt);
      ServedUnderLock(hash, faults, file.contents.value, Op.Expire(grantId, organizationId, expiresAt), change);
      var refused := Refresh(faults);
      if refused.Some? { return Err(refused.value); }
      var changed := ExpireInCopy(state, grantId, organizationId, expiresAt);
      r := Publish(changed, faults);
    }

    method RemoveWorkspaceForTenant(grantId: string, organizationId: string, workspaceId: string, faults: Faults)
      returns (r: Result<Answer, AuthError>)
      requires file.contents.Some?
      modifies this`state, file
      ensures Serves(faults, Op.RemoveWorkspace(grantId, organizationId, workspaceId), old(file.contents), r)
    {
      if !ValidId(organizationId) || !ValidId(workspaceId) {
        return Err(InvalidTenant);
      }
      ghost var change := (s: GrantState) => RemoveWorkspaceIn(s, grantId, organizationId, workspaceId);
      ServedUnderLock(hash, faults, file.contents.value, Op.RemoveWorkspace(grantId, organizationId, workspaceId), change);
      var refused := Refresh(faults);
      if refused.Some? { return Err(refused.value); }
      var changed := RemoveWorkspaceInCopy(state, grantId, organizationId, workspaceId);
      r := Publish(changed, faults);
    }

    method PruneExpired(now: u64, faults: Faults) returns (r: Result<Answer, AuthError>)
      requires file.contents.Some?
      modifies this`state, file
      ensures Serves(faults, Op.PruneGrants(now), old(file.contents), r)
    {
      ghost var change := (s: GrantState) => PruneGrantsIn(s, now);
      ServedUnderLock(hash, faults, file.contents.value, Op.PruneGrants(now), change);
      var refused := Refresh(faults);
      if refused.Some? { return Err(refused.value); }
      var changed := PruneGrantsInCopy(state, now);
      r := Publish(changed, faults);
    }

    method PruneExpiredPairings(now: u64, faults: Faults) returns (r: Result<Answer, AuthError>)
      requires file.contents.Some?
      modifies this`state, file
      ensures Serves(faults, Op.PrunePairings(now), old(file.contents), r)
    {
      r := MutateState(faults, (s: GrantState) => PrunePairingsIn(s, now));
    }
  }
}
