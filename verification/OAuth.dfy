/**
 * The gateway's authorization-code flow (section 4.1 of RFC 6749, with the S256 challenge of RFC 7636), as the
 * code does it: a code is a pairing code of the grant store, remembered a second time in the gateway's memory.
 */
module OAuth {
  import opened Wrappers
  import opened Bytes
  import opened Ids
  import Stores
  import opened Grants

  const RESOURCE := "https://mcp.vorcommander.app/mcp"
  const ACCESS_TTL: u64 := 2_592_000_000
  const CODE_TTL: u64 := 300_000

  // ------------------------------------------------------------------------- scopes

  predicate IsAsciiSpace(c: char) {
    c == ' ' || c == '\t' || c == '\n' || c == '\r' || c as int == 0x0C
  }

  /** The word at the start of `s`, which may be empty. */
  function Word(s: string): (w: string)
    ensures |w| <= |s|
  {
    if s == "" || IsAsciiSpace(s[0]) then "" else [s[0]] + Word(s[1..])
  }

  /** The maximal runs of characters that are not white space. */
  function Words(s: string): seq<string>
    decreases |s|
  {
    if s == "" then []
    else if IsAsciiSpace(s[0]) then Words(s[1..])
    else [Word(s)] + Words(s[|Word(s)|..])
  }

  /** First occurrences only. */
  function Distinct(words: seq<string>): seq<string> {
    if words == [] then []
    else
      var n := |words| - 1;
      var before := Distinct(words[..n]);
      if words[n] in before then before else before + [words[n]]
  }

  predicate Known(scope: string) {
    scope == "mcp" || scope == "gateway.read"
  }

  function ScopeText(scope: Option<string>): string {
    scope.UnwrapOr("mcp gateway.read")
  }

  predicate AllKnown(words: seq<string>) {
    forall i | 0 <= i < |words| :: Known(words[i])
  }

  function ParsedWords(words: seq<string>): Option<seq<string>> {
    if AllKnown(words) && "mcp" in words then Some(Distinct(words)) else None
  }

  function ParsedScopes(scope: Option<string>): Option<seq<string>> {
    ParsedWords(Words(ScopeText(scope)))
  }

  lemma {:induction false} DistinctKeepsWords(words: seq<string>)
    ensures forall w :: w in Distinct(words) <==> w in words
    ensures forall i, j | 0 <= i < j < |Distinct(words)| :: Distinct(words)[i] != Distinct(words)[j]
  {
    if words != [] {
      var n := |words| - 1;
      DistinctKeepsWords(words[..n]);
      assert words == words[..n] + [words[n]];
    }
  }

  /** The text between two places is a word: no white space in it, and nothing but white space or an end beside it. */
  predicate IsWordAt(s: string, i: int, j: int) {
    && 0 <= i < j <= |s|
    && (forall k | i <= k < j :: s[k] != ' ' && s[k] != '\t' && s[k] != '\n' && s[k] != '\r' && s[k] as int != 12)
    && (i > 0 ==> IsAsciiSpace(s[i - 1])) && (j < |s| ==> IsAsciiSpace(s[j]))
  }

  lemma {:induction false} WordIsFirst(s: string)
    ensures Word(s) == s[..|Word(s)|]
    ensures forall k | 0 <= k < |Word(s)| :: !IsAsciiSpace(s[k])
    ensures |Word(s)| < |s| ==> IsAsciiSpace(s[|Word(s)|])
  {
    if s != "" && !IsAsciiSpace(s[0]) {
      WordIsFirst(s[1..]);
    }
  }

  lemma IsWordAtShifts(s: string, n: nat, i: int, j: int)
    requires n <= |s| && n <= i && (0 < n < |s| ==> IsAsciiSpace(s[n - 1]) || IsAsciiSpace(s[n]))
    ensures IsWordAt(s, i, j) <==> IsWordAt(s[n..], i - n, j - n)
  {
    if IsWordAt(s[n..], i - n, j - n) {
      assert forall k | i <= k < j :: s[k] == s[n..][k - n];
    }
  }

  ghost predicate HasWord(s: string, w: string) {
    exists i, j :: IsWordAt(s, i, j) && s[i..j] == w
  }

  lemma LaterWord(s: string, n: nat, w: string)
    requires n <= |s| && (0 < n < |s| ==> IsAsciiSpace(s[n - 1]) || IsAsciiSpace(s[n]))
    requires HasWord(s[n..], w)
    ensures HasWord(s, w)
  {
    var i, j :| IsWordAt(s[n..], i, j) && s[n..][i..j] == w;
    IsWordAtShifts(s, n, i + n, j + n);
    assert s[i + n..j + n] == w;
  }

  lemma FirstWord(s: string, i: int, j: int)
    requires s != "" && !IsAsciiSpace(s[0]) && IsWordAt(s, i, j) && i < |Word(s)|
    ensures i == 0 && j == |Word(s)| && s[i..j] == Word(s)
  {
    WordIsFirst(s);
    var n := |Word(s)|;
    assert n < |s| ==> IsAsciiSpace(s[n]);
  }

  lemma WordBehind(s: string, n: nat, i: int, j: int, w: string)
    requires n <= |s| && n <= i && (0 < n < |s| ==> IsAsciiSpace(s[n - 1]) || IsAsciiSpace(s[n]))
    requires IsWordAt(s, i, j) && s[i..j] == w
    ensures HasWord(s[n..], w)
  {
    IsWordAtShifts(s, n, i, j);
    assert s[n..][i - n..j - n] == w;
  }

  lemma WordLeft(s: string, n: nat, w: string)
    requires HasWord(s, w) && s != ""
    requires n == if IsAsciiSpace(s[0]) then 1 else |Word(s)|
    ensures HasWord(s[n..], w) || (!IsAsciiSpace(s[0]) && w == Word(s))
  {
    WordIsFirst(s);
    var i, j :| IsWordAt(s, i, j) && s[i..j] == w;
    if i >= n {
      WordBehind(s, n, i, j, w);
    } else if !IsAsciiSpace(s[0]) {
      FirstWord(s, i, j);
    }
  }

  /** The words of a text are what stands in it between white space. */
  lemma {:induction false} WordsExactly(s: string, w: string)
    ensures w in Words(s) <==> HasWord(s, w)
    decreases |s|
  {
    if s != "" {
      var n := if IsAsciiSpace(s[0]) then 1 else |Word(s)|;
      WordIsFirst(s);
      WordsExactly(s[n..], w);
      if HasWord(s, w) {
        WordLeft(s, n, w);
      }
      if HasWord(s[n..], w) {
        LaterWord(s, n, w);
      }
      if !IsAsciiSpace(s[0]) && w == Word(s) {
        assert IsWordAt(s, 0, n) && s[0..n] == w;
      }
    }
  }

  lemma {:induction false} WordsOf(w: string, rest: string)
    requires w != "" && (forall i | 0 <= i < |w| :: !IsAsciiSpace(w[i])) && (rest != "" ==> IsAsciiSpace(rest[0]))
    ensures Word(w + rest) == w && Words(w + rest) == [w] + Words(rest)
  {
    assert (w + rest)[1..] == w[1..] + rest && (w + rest)[|w|..] == rest;
    if |w| == 1 {
      assert w[1..] + rest == rest;
    } else {
      WordsOf(w[1..], rest);
    }
  }

  lemma TwoWords(first: string, second: string)
    requires first != "" && forall i | 0 <= i < |first| :: !IsAsciiSpace(first[i])
    requires second != "" && forall i | 0 <= i < |second| :: !IsAsciiSpace(second[i])
    ensures Words(first + (" " + second)) == [first, second]
  {
    WordsOf(first, " " + second);
    assert (" " + second)[1..] == second && second + "" == second;
    WordsOf(second, "");
    assert Words(" " + second) == Words(second) == [second];
  }

  lemma DistinctTwo(first: string, second: string)
    requires first != second
    ensures Distinct([first, second]) == [first, second]
  {
    assert [first, second][..1] == [first] && [first][..0] == [];
    assert Distinct([first]) == [first];
  }

  lemma BothKnown(first: string, second: string)
    requires first == "mcp" && second == "gateway.read"
    ensures ParsedWords([first, second]) == Some([first, second])
  {
    assert |first| == 3 && |second| == 12;
    DistinctTwo(first, second);
    assert [first, second][0] == first;
  }

  lemma BothAreWords(text: string, first: string, second: string)
    requires first == "mcp" && second == "gateway.read" && text == first + (" " + second)
    ensures Words(text) == [first, second]
  {
    TwoWords(first, second);
  }

  /** Whoever asks for no scopes in particular gets both. */
  lemma DefaultScopes(scope: Option<string>, first: string, second: string)
    requires scope.None? && first == "mcp" && second == "gateway.read"
    ensures ParsedScopes(scope) == Some([first, second])
  {
    var text := ScopeText(scope);
    assert text == first + (" " + second);
    BothAreWords(text, first, second);
    BothKnown(first, second);
  }

  /** What is asked for is granted word for word, never more, and always includes "mcp". */
  lemma ScopesGranted(scope: Option<string>)
    requires ParsedScopes(scope).Some?
    ensures var got := ParsedScopes(scope).value;
            && "mcp" in got
            && (forall s | s in got :: s == "mcp" || s == "gateway.read")
            && (forall w :: w in got <==> w in Words(ScopeText(scope)))
            && (forall i, j | 0 <= i < j < |got| :: got[i] != got[j])
  {
    DistinctKeepsWords(Words(ScopeText(scope)));
  }

  method ParseWords(words: seq<string>) returns (r: Option<seq<string>>)
    ensures r == ParsedWords(words)
  {
    var scopes: seq<string> := [];
    var i := 0;
    while i < |words|
      invariant 0 <= i <= |words|
      invariant scopes == Distinct(words[..i])
      invariant AllKnown(words[..i])
    {
      if !Known(words[i]) {
        return None;
      }
      assert words[..i + 1][..i] == words[..i];
      if words[i] !in scopes {
        scopes := scopes + [words[i]];
      }
      i := i + 1;
    }
    assert words[..i] == words;
    DistinctKeepsWords(words);
    r := if "mcp" in scopes then Some(scopes) else None;
  }

  method ParseScopes(scope: Option<string>) returns (r: Option<seq<string>>)
    ensures r == ParsedScopes(scope)
  {
    r := ParseWords(Words(ScopeText(scope)));
  }

  // ------------------------------------------------------------------- one flow's parts

  /**
   * The hash under which a code and a token are kept. The two layers write the same digest down in two
   * alphabets, so one function serves for both. `s256` is the challenge computed from a verifier.
   */
  datatype Crypto = Crypto(hash: Hash, s256: string -> string)

  datatype Form = Form(
    responseType: string,
    clientId: string,
    redirectUri: string,
    scope: string,
    challenge: string,
    challengeMethod: string,
    resource: string,
    ownerToken: string
  )

  datatype TokenForm = TokenForm(code: string, clientId: string, redirectUri: string, verifier: string)

  datatype CodeRecord = CodeRecord(
    clientId: string,
    redirectUri: string,
    challenge: string,
    scopes: seq<string>,
    actorId: string,
    expiresAt: u64
  )

  predicate VerifierChar(c: char) {
    'A' <= c <= 'Z' || 'a' <= c <= 'z' || '0' <= c <= '9' || c == '-' || c == '.' || c == '_' || c == '~'
  }

  predicate VerifyPkce(crypto: Crypto, verifier: string, expected: string) {
    43 <= ByteLen(verifier) <= 128 && (forall c | c in verifier :: VerifierChar(c)) && crypto.s256(verifier) == expected
  }

  function OAuthActor(owner: string, clientId: string): string {
    owner + ":oauth:" + clientId
  }

  predicate WellFormed(form: Form) {
    && form.responseType == "code" && form.challengeMethod == "S256" && ByteLen(form.challenge) >= 32
    && (form.resource == "" || form.resource == RESOURCE)
  }

  /** The client and the scopes of an acceptable request. */
  function ValidateAuthorization(form: Form, client: Option<Client>): Option<(Client, seq<string>)> {
    if !WellFormed(form) || client.None? || form.redirectUri !in client.value.redirectUris then None
    else
      match ParsedScopes(Some(form.scope))
      case None => None
      case Some(scopes) => Some((client.value, scopes))
  }

  /** The owner's consent: who asked, who agreed, and to what. */
  datatype Approval = Approval(form: Form, client: Client, owner: Grant, scopes: seq<string>, now: u64, code: string)

  function RecordOf(a: Approval): CodeRecord {
    CodeRecord(a.form.clientId, a.form.redirectUri, a.form.challenge, a.scopes,
               OAuthActor(a.owner.actorId, a.form.clientId), SaturatingAdd(a.now, CODE_TTL))
  }

  predicate OwnerConsents(owner: Grant, now: u64) {
    owner.actorId == "local-pilot" && !owner.revoked && owner.expiresAt > now
            && ("mcp" in owner.scopes || "*" in owner.scopes)
  }

  predicate Proper(a: Approval) {
    && ValidateAuthorization(a.form, Some(a.client)) == Some((a.client, a.scopes))
    && OwnerConsents(a.owner, a.now)
  }

  predicate Acceptable(crypto: Crypto, form: TokenForm, record: CodeRecord, now: u64) {
    && record.expiresAt > now && record.clientId == form.clientId && record.redirectUri == form.redirectUri
    && VerifyPkce(crypto, form.verifier, record.challenge)
  }

  function Published(codes: map<string, CodeRecord>, h: string, record: CodeRecord, now: u64): map<string, CodeRecord> {
    (map k | k in codes && codes[k].expiresAt > now :: codes[k])[h := record]
  }

  function AsSet(s: seq<string>): set<string> {
    set x | x in s
  }

  // ------------------------------------------------------------------ many flows at once

  datatype Flow =
    | Consenting(form: Form, client: Client, scopes: seq<string>)
    | Owned(form: Form, client: Client, scopes: seq<string>, owner: Grant, now: u64)
    | Coded(approval: Approval)
    | Redeeming(tokenForm: TokenForm, record: CodeRecord, now: u64)

  /** A token answered to a client, with the request it answers. */
  datatype IssuedToken = IssuedToken(form: TokenForm, now: u64, token: string, grant: Grant)

  /**
   * The grant store, which others use too; the gateway's memory and the requests it is serving; and, for the
   * statements, the codes ever offered, the store's calls, the approvals, the codes taken and the tokens given.
   */
  datatype World = World(
    store: GrantState,
    codes: map<string, CodeRecord>,
    flows: map<nat, Flow>,
    used: set<string>,
    ops: seq<Op>,
    approvals: seq<Approval>,
    taken: seq<string>,
    tokens: seq<IssuedToken>
  )

  /** A step of a request that calls the store may have that call fail, which then does nothing. */
  datatype Action =
    | Ask(id: nat, form: Form, fails: bool)
    | Authenticate(id: nat, now: u64, fails: bool)
    | Pair(id: nat, code: string, pairingId: string, fails: bool)
    | Publish(id: nat)
    | Exchange(id: nat, tokenForm: TokenForm, now: u64)
    | RedeemCode(id: nat, token: string, grantId: string, fails: bool)
    | Other(op: Op)
    | Restart

  function Ended(w: World, id: nat): World {
    w.(flows := w.flows - {id})
  }

  function Goes(w: World, id: nat, flow: Flow): World {
    w.(flows := w.flows[id := flow])
  }

  /** Any call on the store, by this gateway or anyone else; a code, being random, is never offered twice. */
  function Calls(crypto: Crypto, w: World, op: Op): World {
    w.(store := Grants.Take(crypto.hash, w.store, op).0,
       ops := w.ops + [op],
       used := if op.CreatePairing? then w.used + {crypto.hash(op.code)} else w.used)
  }

  predicate CodeFresh(crypto: Crypto, w: World, op: Op) {
    op.CreatePairing? ==> crypto.hash(op.code) !in w.used
  }

  function AskStep(crypto: Crypto, w: World, id: nat, form: Form): World {
    var found := Grants.Take(crypto.hash, w.store, LookUp(form.clientId)).1;
    if found.Err? || !found.value.Found? then w
    else
      match ValidateAuthorization(form, found.value.maybeClient)
      case None => w
      case Some(pair) => Goes(w, id, Consenting(form, pair.0, pair.1))
  }

  function AuthenticateStep(crypto: Crypto, w: World, id: nat, flow: Flow, now: u64): World
    requires flow.Consenting?
  {
    var owner := Grants.Take(crypto.hash, w.store, Validate(flow.form.ownerToken, "mcp", now)).1;
    if owner.Err? || !owner.value.Accepted? || owner.value.grant.actorId != "local-pilot" then Ended(w, id)
    else Goes(w, id, Owned(flow.form, flow.client, flow.scopes, owner.value.grant, now))
  }

  function PairStep(crypto: Crypto, w: World, id: nat, flow: Flow, code: string, pairingId: string): World
    requires flow.Owned?
  {
    var op := CreatePairing(AsSet(flow.scopes), CODE_TTL, ACCESS_TTL, flow.now, code, pairingId);
    if !CodeFresh(crypto, w, op) then w
    else
      var n := Calls(crypto, w, op);
      if Grants.Take(crypto.hash, w.store, op).1.Err? then Ended(n, id)
      else Goes(n, id, Coded(Approval(flow.form, flow.client, flow.owner, flow.scopes, flow.now, code)))
  }

  function PublishStep(crypto: Crypto, w: World, id: nat, a: Approval): World {
    Ended(w, id).(codes := Published(w.codes, crypto.hash(a.code), RecordOf(a), a.now), approvals := w.approvals + [a])
  }

  /** The code is forgotten whether or not the rest of the request is right. */
  function ExchangeStep(crypto: Crypto, w: World, id: nat, form: TokenForm, now: u64): World {
    var h := crypto.hash(form.code);
    if h !in w.codes then w
    else
      var n := w.(codes := w.codes - {h}, taken := w.taken + [h]);
      if Acceptable(crypto, form, w.codes[h], now) then Goes(n, id, Redeeming(form, w.codes[h], now)) else n
  }

  function RedeemStep(crypto: Crypto, w: World, id: nat, flow: Flow, token: string, grantId: string): World
    requires flow.Redeeming?
  {
    var op := Redeem(flow.tokenForm.code, flow.record.actorId, flow.now, token, grantId);
    var answer := Grants.Take(crypto.hash, w.store, op).1;
    var n := Ended(Calls(crypto, w, op), id);
    if answer.Err? || !answer.value.Issued? then n
    else n.(tokens := n.tokens + [IssuedToken(flow.tokenForm, flow.now, answer.value.token, answer.value.grant)])
  }

  /** One step of the gateway or of somebody else using the store; a restart loses the gateway's memory. */
  function Step(crypto: Crypto, w: World, a: Action): World {
    match a
    case Ask(id, form, fails) => if id in w.flows || fails then w else AskStep(crypto, w, id, form)
    case Authenticate(id, now, fails) =>
      if id !in w.flows || !w.flows[id].Consenting? then w
      else if fails then Ended(w, id)
      else AuthenticateStep(crypto, w, id, w.flows[id], now)
    case Pair(id, code, pairingId, fails) =>
      if id !in w.flows || !w.flows[id].Owned? then w
      else if fails then Ended(w, id)
      else PairStep(crypto, w, id, w.flows[id], code, pairingId)
    case Publish(id) =>
      if id in w.flows && w.flows[id].Coded? then PublishStep(crypto, w, id, w.flows[id].approval) else w
    case Exchange(id, form, now) => if id in w.flows then w else ExchangeStep(crypto, w, id, form, now)
    case RedeemCode(id, token, grantId, fails) =>
      if id !in w.flows || !w.flows[id].Redeeming? then w
      else if fails then Ended(w, id)
      else RedeemStep(crypto, w, id, w.flows[id], token, grantId)
    case Other(op) => if CodeFresh(crypto, w, op) then Calls(crypto, w, op) else w
    case Restart => w.(codes := map[], flows := map[])
  }

  function Run(crypto: Crypto, w: World, actions: seq<Action>): World {
    if actions == [] then w
    else Step(crypto, Run(crypto, w, actions[..|actions| - 1]), actions[|actions| - 1])
  }

  function Start(base: GrantState): World {
    World(base, map[], map[], base.pairings.Keys, [], [], [], [])
  }

  // ----------------------------------------------------------------- what always holds

  /** The pairing a code stands for, while it is there, is for the approved scopes and for 30 days. */
  predicate Stands(store: GrantState, h: string, scopes: seq<string>) {
    h in store.pairings ==>
      store.pairings[h].scopes == AsSet(scopes) && store.pairings[h].grantTtl == 2_592_000_000
  }

  ghost predicate Approved(crypto: Crypto, approvals: seq<Approval>, h: string, record: CodeRecord) {
    exists a :: a in approvals && crypto.hash(a.code) == h && RecordOf(a) == record
  }

  /** The token was earned: by someone who matches, in time, what the owner approved for that very code. */
  ghost predicate Rightful(crypto: Crypto, approvals: seq<Approval>, t: IssuedToken) {
    exists a ::
      && a in approvals && Proper(a) && crypto.hash(a.code) == crypto.hash(t.form.code)
      && t.form.clientId == a.form.clientId && t.form.redirectUri == a.form.redirectUri
      && crypto.s256(t.form.verifier) == a.form.challenge && IsVerifier(t.form.verifier)
      && t.now < a.now + 300_000
      && t.grant.scopes == AsSet(a.scopes)
      && t.grant.actorId == a.owner.actorId + ":oauth:" + a.form.clientId
      && t.grant.organizationId == "local" && t.grant.workspaceIds == {}
      && t.grant.issuedAt == t.now && t.grant.expiresAt == t.now + 2_592_000_000
  }

  /** What may be a verifier (section 4.1 of RFC 7636): 43 to 128 letters, digits, hyphens, periods, underscores, tildes. */
  predicate IsVerifier(verifier: string) {
    && 43 <= ByteLen(verifier) <= 128
    && forall c | c in verifier ::
         || 'A' <= c <= 'Z' || 'a' <= c <= 'z' || '0' <= c <= '9' || c == '-' || c == '.' || c == '_' || c == '~'
  }

  /** When a code, remembered like this, is exchanged: in time, by the client it was for, with the verifier behind it. */
  predicate Exchanges(crypto: Crypto, form: TokenForm, record: CodeRecord, now: u64) {
    && now < record.expiresAt
    && form.clientId == record.clientId && form.redirectUri == record.redirectUri
    && crypto.s256(form.verifier) == record.challenge && IsVerifier(form.verifier)
  }

  lemma AcceptableExactly(crypto: Crypto, form: TokenForm, record: CodeRecord, now: u64)
    ensures Acceptable(crypto, form, record, now) <==> Exchanges(crypto, form, record, now)
  {}

  /** What an approval that is recorded was given for. */
  lemma ProperMeans(a: Approval)
    requires Proper(a)
    ensures a.form.responseType == "code" && a.form.challengeMethod == "S256" && ByteLen(a.form.challenge) >= 32
    ensures a.form.resource == "" || a.form.resource == "https://mcp.vorcommander.app/mcp"
    ensures a.form.redirectUri in a.client.redirectUris
    ensures a.owner.actorId == "local-pilot" && !a.owner.revoked && a.now < a.owner.expiresAt
    ensures "mcp" in a.owner.scopes || "*" in a.owner.scopes
    ensures "mcp" in a.scopes && forall scope | scope in a.scopes :: scope == "mcp" || scope == "gateway.read"
  {
    ScopesGranted(Some(a.form.scope));
  }

  /** Which requests are acceptable at all. */
  lemma AcceptableRequestExactly(form: Form, client: Client)
    ensures ValidateAuthorization(form, Some(client)).Some? <==>
              && form.responseType == "code" && form.challengeMethod == "S256" && ByteLen(form.challenge) >= 32
              && (form.resource == "" || form.resource == "https://mcp.vorcommander.app/mcp")
              && form.redirectUri in client.redirectUris
              && "mcp" in Words(form.scope) && forall w | w in Words(form.scope) :: w == "mcp" || w == "gateway.read"
  {
    var words := Words(form.scope);
    assert ScopeText(Some(form.scope)) == form.scope;
    if AllKnown(words) {
      forall w | w in words
        ensures w == "mcp" || w == "gateway.read"
      {
        var i :| 0 <= i < |words| && words[i] == w;
        assert Known(words[i]);
      }
    }
    if forall w | w in words :: w == "mcp" || w == "gateway.read" {
      forall i | 0 <= i < |words|
        ensures Known(words[i])
      {
        assert words[i] in words;
      }
    }
  }

  ghost predicate FlowSound(crypto: Crypto, w: World, flow: Flow) {
    match flow
    case Consenting(form, client, scopes) => ValidateAuthorization(form, Some(client)) == Some((client, scopes))
    case Owned(form, client, scopes, owner, now) =>
      ValidateAuthorization(form, Some(client)) == Some((client, scopes)) && OwnerConsents(owner, now)
    case Coded(a) =>
      && Proper(a) && crypto.hash(a.code) in w.used && Stands(w.store, crypto.hash(a.code), a.scopes)
      && forall b | b in w.approvals :: crypto.hash(b.code) != crypto.hash(a.code)
    case Redeeming(form, record, now) =>
      && Acceptable(crypto, form, record, now)
      && Approved(crypto, w.approvals, crypto.hash(form.code), record)
      && crypto.hash(form.code) in w.used
      && Stands(w.store, crypto.hash(form.code), record.scopes)
      && crypto.hash(form.code) in w.taken
      && forall t | t in w.tokens :: crypto.hash(t.form.code) != crypto.hash(form.code)
  }

  ghost predicate FlowsSound(crypto: Crypto, w: World) {
    forall id | id in w.flows :: FlowSound(crypto, w, w.flows[id])
  }

  /** No code is with two requests at once. */
  ghost predicate FlowsApart(crypto: Crypto, flows: map<nat, Flow>) {
    forall i, j | i in flows && j in flows && i != j ::
      && (flows[i].Coded? && flows[j].Coded? ==>
            crypto.hash(flows[i].approval.code) != crypto.hash(flows[j].approval.code))
      && (flows[i].Redeeming? && flows[j].Redeeming? ==>
            crypto.hash(flows[i].tokenForm.code) != crypto.hash(flows[j].tokenForm.code))
  }

  ghost predicate CodesSound(crypto: Crypto, w: World) {
    && (forall h | h in w.codes ::
          && Approved(crypto, w.approvals, h, w.codes[h])
          && h in w.used && h !in w.taken && Stands(w.store, h, w.codes[h].scopes))
    && (forall a | a in w.approvals :: Proper(a) && crypto.hash(a.code) in w.used)
    && (forall i, j | 0 <= i < j < |w.taken| :: w.taken[i] != w.taken[j])
    && (forall h | h in w.taken :: exists a :: a in w.approvals && crypto.hash(a.code) == h)
  }

  ghost predicate TokensSound(crypto: Crypto, w: World) {
    && (forall t | t in w.tokens :: Rightful(crypto, w.approvals, t) && crypto.hash(t.form.code) in w.taken)
    && (forall i, j | 0 <= i < j < |w.tokens| ::
          crypto.hash(w.tokens[i].form.code) != crypto.hash(w.tokens[j].form.code))
  }

  ghost predicate StoreSound(crypto: Crypto, base: GrantState, w: World) {
    && w.store == Reached(crypto.hash, base, w.ops)
    && w.store.pairings.Keys <= w.used
    && base.pairings.Keys <= w.used
    && forall h :: Offered(crypto.hash, base, w.ops, h) <= if h in w.used && h !in base.pairings then 1 else 0
  }

  ghost predicate Inv(crypto: Crypto, base: GrantState, w: World) {
    && StoreSound(crypto, base, w) && CodesSound(crypto, w) && FlowsSound(crypto, w)
    && FlowsApart(crypto, w.flows) && TokensSound(crypto, w)
  }

  // Calls on the store.

  lemma PairingsKeep(hash: Hash, s: GrantState, op: Op, h: string)
    requires !Offers(hash, op, h)
    ensures var n := Grants.Take(hash, s, op).0; h in n.pairings ==> h in s.pairings && n.pairings[h] == s.pairings[h]
  {
    Taken(hash, s, op);
  }

  lemma CallsKeepStore(crypto: Crypto, base: GrantState, w: World, op: Op)
    requires StoreSound(crypto, base, w) && CodeFresh(crypto, w, op)
    ensures StoreSound(crypto, base, Calls(crypto, w, op))
  {
    var n := Calls(crypto, w, op);
    Stores.AfterStep(GrantSpec(crypto.hash), base, w.ops, op);
    assert n.ops[..|w.ops|] == w.ops;
    forall h | h in n.store.pairings
      ensures h in n.used
    {
      if !Offers(crypto.hash, op, h) {
        PairingsKeep(crypto.hash, w.store, op, h);
      }
    }
  }

  lemma CallsKeepStanding(crypto: Crypto, w: World, op: Op, h: string, scopes: seq<string>)
    requires h in w.used && Stands(w.store, h, scopes) && CodeFresh(crypto, w, op)
    ensures Stands(Calls(crypto, w, op).store, h, scopes)
  {
    PairingsKeep(crypto.hash, w.store, op, h);
  }

  lemma CallsKeepFlow(crypto: Crypto, w: World, op: Op, flow: Flow)
    requires FlowSound(crypto, w, flow) && CodeFresh(crypto, w, op)
    ensures FlowSound(crypto, Calls(crypto, w, op), flow)
  {
    match flow
    case Coded(a) => CallsKeepStanding(crypto, w, op, crypto.hash(a.code), a.scopes);
    case Redeeming(form, record, _) => CallsKeepStanding(crypto, w, op, crypto.hash(form.code), record.scopes);
    case _ =>
  }

  lemma CallsKeep(crypto: Crypto, base: GrantState, w: World, op: Op)
    requires Inv(crypto, base, w) && CodeFresh(crypto, w, op)
    ensures Inv(crypto, base, Calls(crypto, w, op))
  {
    var n := Calls(crypto, w, op);
    CallsKeepStore(crypto, base, w, op);
    forall h | h in w.codes
      ensures Stands(n.store, h, w.codes[h].scopes)
    {
      CallsKeepStanding(crypto, w, op, h, w.codes[h].scopes);
    }
    forall id | id in w.flows
      ensures FlowSound(crypto, n, w.flows[id])
    {
      CallsKeepFlow(crypto, w, op, w.flows[id]);
    }
  }

  // The gateway's own steps.

  lemma EndKeeps(crypto: Crypto, base: GrantState, w: World, id: nat)
    requires Inv(crypto, base, w)
    ensures Inv(crypto, base, Ended(w, id))
  {
    var n := Ended(w, id);
    forall i | i in n.flows
      ensures FlowSound(crypto, n, n.flows[i])
    {
      assert FlowSound(crypto, w, w.flows[i]);
    }
  }

  /** A request that comes by a flow that is sound, and shares its code with no other. */
  lemma GoesKeeps(crypto: Crypto, base: GrantState, w: World, id: nat, flow: Flow)
    requires Inv(crypto, base, w) && FlowSound(crypto, w, flow)
    requires forall i | i in w.flows && i != id ::
      && (flow.Coded? && w.flows[i].Coded? ==>
            crypto.hash(flow.approval.code) != crypto.hash(w.flows[i].approval.code))
      && (flow.Redeeming? && w.flows[i].Redeeming? ==>
            crypto.hash(flow.tokenForm.code) != crypto.hash(w.flows[i].tokenForm.code))
    ensures Inv(crypto, base, Goes(w, id, flow))
  {
    var n := Goes(w, id, flow);
    forall i | i in n.flows
      ensures FlowSound(crypto, n, n.flows[i])
    {
      assert i != id ==> FlowSound(crypto, w, w.flows[i]);
    }
  }

  lemma AskKeeps(crypto: Crypto, base: GrantState, w: World, id: nat, form: Form)
    requires Inv(crypto, base, w)
    ensures Inv(crypto, base, AskStep(crypto, w, id, form))
  {
    var found := Grants.Take(crypto.hash, w.store, LookUp(form.clientId)).1;
    if found.Ok? && found.value.Found? {
      var checked := ValidateAuthorization(form, found.value.maybeClient);
      if checked.Some? {
        GoesKeeps(crypto, base, w, id, Consenting(form, checked.value.0, checked.value.1));
      }
    }
  }

  lemma OwnerAccepted(hash: Hash, s: GrantState, token: string, now: u64)
    requires var r := Grants.Take(hash, s, Validate(token, "mcp", now)).1;
             r.Ok? && r.value.Accepted? && r.value.grant.actorId == "local-pilot"
    ensures OwnerConsents(Grants.Take(hash, s, Validate(token, "mcp", now)).1.value.grant, now)
  {
    Taken(hash, s, Validate(token, "mcp", now));
  }

  lemma AuthenticateKeeps(crypto: Crypto, base: GrantState, w: World, id: nat, now: u64)
    requires Inv(crypto, base, w) && id in w.flows && w.flows[id].Consenting?
    ensures Inv(crypto, base, AuthenticateStep(crypto, w, id, w.flows[id], now))
  {
    var flow := w.flows[id];
    assert FlowSound(crypto, w, flow);
    var r := Grants.Take(crypto.hash, w.store, Validate(flow.form.ownerToken, "mcp", now)).1;
    if r.Ok? && r.value.Accepted? && r.value.grant.actorId == "local-pilot" {
      OwnerAccepted(crypto.hash, w.store, flow.form.ownerToken, now);
      GoesKeeps(crypto, base, w, id, Owned(flow.form, flow.client, flow.scopes, r.value.grant, now));
    } else {
      EndKeeps(crypto, base, w, id);
    }
  }

  lemma KnownNotBlank(scope: string)
    requires Known(scope)
    ensures !Blank(scope)
  {
    assert scope[0] in scope && !IsWhitespace(scope[0]);
  }

  lemma ScopesNotBlank(scope: Option<string>)
    requires ParsedScopes(scope).Some?
    ensures NonBlank(AsSet(ParsedScopes(scope).value)) == AsSet(ParsedScopes(scope).value)
  {
    var got := ParsedScopes(scope).value;
    DistinctKeepsWords(Words(ScopeText(scope)));
    forall s | s in got
      ensures !Blank(s)
    {
      KnownNotBlank(s);
    }
  }

  lemma PairingMade(crypto: Crypto, w: World, op: Op, scopes: seq<string>)
    requires op.CreatePairing? && Grants.Take(crypto.hash, w.store, op).1.Ok?
    requires op.scopes == AsSet(scopes) && NonBlank(AsSet(scopes)) == AsSet(scopes) && op.grantTtl == 2_592_000_000
    ensures Stands(Grants.Take(crypto.hash, w.store, op).0, crypto.hash(op.code), scopes)
  {
    Taken(crypto.hash, w.store, op);
  }

  lemma PairKeeps(crypto: Crypto, base: GrantState, w: World, id: nat, code: string, pairingId: string)
    requires Inv(crypto, base, w) && id in w.flows && w.flows[id].Owned?
    ensures Inv(crypto, base, PairStep(crypto, w, id, w.flows[id], code, pairingId))
  {
    var flow := w.flows[id];
    var op := CreatePairing(AsSet(flow.scopes), CODE_TTL, ACCESS_TTL, flow.now, code, pairingId);
    assert FlowSound(crypto, w, flow);
    if CodeFresh(crypto, w, op) {
      var n := Calls(crypto, w, op);
      CallsKeep(crypto, base, w, op);
      if Grants.Take(crypto.hash, w.store, op).1.Err? {
        EndKeeps(crypto, base, n, id);
      } else {
        ScopesNotBlank(Some(flow.form.scope));
        PairingMade(crypto, w, op, flow.scopes);
        NewCodeApart(crypto, w, crypto.hash(code));
        GoesKeeps(crypto, base, n, id, Coded(Approval(flow.form, flow.client, flow.owner, flow.scopes, flow.now, code)));
      }
    }
  }

  lemma NewCodeApart(crypto: Crypto, w: World, h: string)
    requires FlowsSound(crypto, w) && CodesSound(crypto, w) && h !in w.used
    ensures forall i | i in w.flows && w.flows[i].Coded? :: crypto.hash(w.flows[i].approval.code) != h
    ensures forall a | a in w.approvals :: crypto.hash(a.code) != h
  {
    forall i | i in w.flows && w.flows[i].Coded?
      ensures crypto.hash(w.flows[i].approval.code) != h
    {
      assert FlowSound(crypto, w, w.flows[i]);
    }
  }

  lemma PublishCodes(crypto: Crypto, w: World, id: nat)
    requires CodesSound(crypto, w) && id in w.flows && w.flows[id].Coded? && FlowSound(crypto, w, w.flows[id])
    ensures CodesSound(crypto, PublishStep(crypto, w, id, w.flows[id].approval))
  {
    var a := w.flows[id].approval;
    var n := PublishStep(crypto, w, id, a);
    assert a in n.approvals;
    assert forall b | b in w.approvals :: b in n.approvals;
    forall h | h in n.codes
      ensures Approved(crypto, n.approvals, h, n.codes[h]) && h in n.used && h !in n.taken
      ensures Stands(n.store, h, n.codes[h].scopes)
    {
      if h == crypto.hash(a.code) {
        assert n.codes[h] == RecordOf(a);
      } else {
        assert h in w.codes && n.codes[h] == w.codes[h];
        var b :| b in w.approvals && crypto.hash(b.code) == h && RecordOf(b) == w.codes[h];
        assert b in n.approvals;
      }
    }
    forall h | h in n.taken
      ensures exists b :: b in n.approvals && crypto.hash(b.code) == h
    {
      var b :| b in w.approvals && crypto.hash(b.code) == h;
      assert b in n.approvals;
    }
  }

  lemma RightfulStays(crypto: Crypto, approvals: seq<Approval>, more: seq<Approval>, t: IssuedToken)
    requires Rightful(crypto, approvals, t) && forall a | a in approvals :: a in more
    ensures Rightful(crypto, more, t)
  {}

  lemma ApprovedStays(crypto: Crypto, approvals: seq<Approval>, more: seq<Approval>, h: string, record: CodeRecord)
    requires Approved(crypto, approvals, h, record) && forall a | a in approvals :: a in more
    ensures Approved(crypto, more, h, record)
  {}

  lemma PublishFlows(crypto: Crypto, w: World, id: nat)
    requires FlowsSound(crypto, w) && FlowsApart(crypto, w.flows) && id in w.flows && w.flows[id].Coded?
    ensures FlowsSound(crypto, PublishStep(crypto, w, id, w.flows[id].approval))
  {
    var n := PublishStep(crypto, w, id, w.flows[id].approval);
    forall i | i in n.flows
      ensures FlowSound(crypto, n, n.flows[i])
    {
      assert FlowSound(crypto, w, w.flows[i]);
      if w.flows[i].Redeeming? {
        ApprovedStays(crypto, w.approvals, n.approvals, crypto.hash(w.flows[i].tokenForm.code), w.flows[i].record);
      }
    }
  }

  lemma PublishKeeps(crypto: Crypto, base: GrantState, w: World, id: nat)
    requires Inv(crypto, base, w) && id in w.flows && w.flows[id].Coded?
    ensures Inv(crypto, base, PublishStep(crypto, w, id, w.flows[id].approval))
  {
    assert FlowSound(crypto, w, w.flows[id]);
    var n := PublishStep(crypto, w, id, w.flows[id].approval);
    PublishCodes(crypto, w, id);
    PublishFlows(crypto, w, id);
    forall t | t in n.tokens
      ensures Rightful(crypto, n.approvals, t)
    {
      RightfulStays(crypto, w.approvals, n.approvals, t);
    }
  }

  lemma TakeKeeps(crypto: Crypto, base: GrantState, w: World, n: World, h: string)
    requires Inv(crypto, base, w) && h in w.codes
    requires n == w.(codes := w.codes - {h}, taken := w.taken + [h])
    ensures Inv(crypto, base, n)
    ensures forall t | t in n.tokens :: crypto.hash(t.form.code) != h
    ensures forall i | i in n.flows && n.flows[i].Redeeming? :: crypto.hash(n.flows[i].tokenForm.code) != h
  {
    forall k | k in n.taken
      ensures exists a :: a in n.approvals && crypto.hash(a.code) == k
    {
      if k == h {
        assert Approved(crypto, w.approvals, h, w.codes[h]);
      }
    }
    forall i | i in n.flows
      ensures FlowSound(crypto, n, n.flows[i])
      ensures n.flows[i].Redeeming? ==> crypto.hash(n.flows[i].tokenForm.code) != h
    {
      assert FlowSound(crypto, w, w.flows[i]);
    }
  }

  lemma ExchangeKeeps(crypto: Crypto, base: GrantState, w: World, id: nat, form: TokenForm, now: u64)
    requires Inv(crypto, base, w)
    ensures Inv(crypto, base, ExchangeStep(crypto, w, id, form, now))
  {
    var h := crypto.hash(form.code);
    if h in w.codes {
      var n := w.(codes := w.codes - {h}, taken := w.taken + [h]);
      TakeKeeps(crypto, base, w, n, h);
      if Acceptable(crypto, form, w.codes[h], now) {
        assert n.taken[|w.taken|] == h;
        GoesKeeps(crypto, base, n, id, Redeeming(form, w.codes[h], now));
      }
    }
  }

  /** A grant of nobody's workspace, for 30 days from now. */
  predicate ThirtyDays(grant: Grant, now: u64) {
    && grant.organizationId == "local" && grant.workspaceIds == {} && !grant.revoked
    && grant.issuedAt == now && grant.expiresAt == now + 2_592_000_000
  }

  lemma RedeemedGrant(crypto: Crypto, s: GrantState, op: Op, scopes: seq<string>)
    requires op.Redeem? && Stands(s, crypto.hash(op.code), scopes) && Grants.Take(crypto.hash, s, op).1.Ok?
    ensures var r := Grants.Take(crypto.hash, s, op).1.value;
            r.Issued? && r.grant.scopes == AsSet(scopes) && r.grant.actorId == op.actorId && ThirtyDays(r.grant, op.now)
  {
    Taken(crypto.hash, s, op);
  }

  lemma TokenRightful(crypto: Crypto, w: World, flow: Flow, t: IssuedToken)
    requires flow.Redeeming? && CodesSound(crypto, w) && FlowSound(crypto, w, flow)
    requires t.form == flow.tokenForm && t.now == flow.now
    requires t.grant.scopes == AsSet(flow.record.scopes) && t.grant.actorId == flow.record.actorId
    requires ThirtyDays(t.grant, t.now)
    ensures Rightful(crypto, w.approvals, t)
  {
    var a :| a in w.approvals && crypto.hash(a.code) == crypto.hash(flow.tokenForm.code) && RecordOf(a) == flow.record;
    assert Proper(a);
  }

  lemma TokenGivenTokens(crypto: Crypto, w: World, t: IssuedToken)
    requires TokensSound(crypto, w) && Rightful(crypto, w.approvals, t) && crypto.hash(t.form.code) in w.taken
    requires forall u | u in w.tokens :: crypto.hash(u.form.code) != crypto.hash(t.form.code)
    ensures TokensSound(crypto, w.(tokens := w.tokens + [t]))
  {
    var n := w.(tokens := w.tokens + [t]);
    forall i, j | 0 <= i < j < |n.tokens|
      ensures crypto.hash(n.tokens[i].form.code) != crypto.hash(n.tokens[j].form.code)
    {
      assert w.tokens[i] in w.tokens;
    }
  }

  lemma TokenGivenFlows(crypto: Crypto, w: World, t: IssuedToken)
    requires FlowsSound(crypto, w)
    requires forall i | i in w.flows && w.flows[i].Redeeming? ::
      crypto.hash(w.flows[i].tokenForm.code) != crypto.hash(t.form.code)
    ensures FlowsSound(crypto, w.(tokens := w.tokens + [t]))
  {
    var n := w.(tokens := w.tokens + [t]);
    forall i | i in n.flows
      ensures FlowSound(crypto, n, n.flows[i])
    {
      assert FlowSound(crypto, w, w.flows[i]);
    }
  }

  lemma TokenGiven(crypto: Crypto, base: GrantState, w: World, t: IssuedToken)
    requires Inv(crypto, base, w) && Rightful(crypto, w.approvals, t)
    requires crypto.hash(t.form.code) in w.taken
    requires forall u | u in w.tokens :: crypto.hash(u.form.code) != crypto.hash(t.form.code)
    requires forall i | i in w.flows && w.flows[i].Redeeming? ::
      crypto.hash(w.flows[i].tokenForm.code) != crypto.hash(t.form.code)
    ensures Inv(crypto, base, w.(tokens := w.tokens + [t]))
  {
    TokenGivenTokens(crypto, w, t);
    TokenGivenFlows(crypto, w, t);
  }

  /** The request's call on the store done and its flow ended, its code is with no other flow and no token. */
  lemma RedeemingAlone(crypto: Crypto, base: GrantState, w: World, id: nat, op: Op)
    requires Inv(crypto, base, w) && id in w.flows && w.flows[id].Redeeming? && op.Redeem?
    ensures var n := Ended(Calls(crypto, w, op), id);
            var h := crypto.hash(w.flows[id].tokenForm.code);
            && Inv(crypto, base, n) && n.approvals == w.approvals && n.tokens == w.tokens
            && h in n.taken && (forall t | t in n.tokens :: crypto.hash(t.form.code) != h)
            && (forall i | i in n.flows && n.flows[i].Redeeming? :: crypto.hash(n.flows[i].tokenForm.code) != h)
  {
    assert FlowSound(crypto, w, w.flows[id]);
    CallsKeep(crypto, base, w, op);
    EndKeeps(crypto, base, Calls(crypto, w, op), id);
  }

  /** The grant had for the code goes to whoever asked. */
  lemma AnsweringKeeps(crypto: Crypto, base: GrantState, w: World, n: World, flow: Flow, token: string, grant: Grant)
    requires Inv(crypto, base, n) && CodesSound(crypto, w) && n.approvals == w.approvals
    requires flow.Redeeming? && FlowSound(crypto, w, flow)
    requires grant.scopes == AsSet(flow.record.scopes) && grant.actorId == flow.record.actorId && ThirtyDays(grant, flow.now)
    requires var h := crypto.hash(flow.tokenForm.code);
             && h in n.taken && (forall t | t in n.tokens :: crypto.hash(t.form.code) != h)
             && (forall i | i in n.flows && n.flows[i].Redeeming? :: crypto.hash(n.flows[i].tokenForm.code) != h)
    ensures Inv(crypto, base, n.(tokens := n.tokens + [IssuedToken(flow.tokenForm, flow.now, token, grant)]))
  {
    var t := IssuedToken(flow.tokenForm, flow.now, token, grant);
    TokenRightful(crypto, w, flow, t);
    TokenGiven(crypto, base, n, t);
  }

  lemma RedeemedKeeps(crypto: Crypto, base: GrantState, w: World, n: World, flow: Flow, op: Op)
    requires Inv(crypto, base, n) && CodesSound(crypto, w) && n.approvals == w.approvals
    requires flow.Redeeming? && FlowSound(crypto, w, flow)
    requires op.Redeem? && op.code == flow.tokenForm.code && op.actorId == flow.record.actorId && op.now == flow.now
    requires Grants.Take(crypto.hash, w.store, op).1.Ok?
    requires var h := crypto.hash(flow.tokenForm.code);
             && h in n.taken && (forall t | t in n.tokens :: crypto.hash(t.form.code) != h)
             && (forall i | i in n.flows && n.flows[i].Redeeming? :: crypto.hash(n.flows[i].tokenForm.code) != h)
    ensures var answer := Grants.Take(crypto.hash, w.store, op).1.value;
            && answer.Issued?
            && Inv(crypto, base, n.(tokens := n.tokens + [IssuedToken(flow.tokenForm, flow.now, answer.token, answer.grant)]))
  {
    RedeemedGrant(crypto, w.store, op, flow.record.scopes);
    var answer := Grants.Take(crypto.hash, w.store, op).1.value;
    AnsweringKeeps(crypto, base, w, n, flow, answer.token, answer.grant);
  }

  lemma RedeemKeeps(crypto: Crypto, base: GrantState, w: World, id: nat, token: string, grantId: string)
    requires Inv(crypto, base, w) && id in w.flows && w.flows[id].Redeeming?
    ensures Inv(crypto, base, RedeemStep(crypto, w, id, w.flows[id], token, grantId))
  {
    var flow := w.flows[id];
    var op := Redeem(flow.tokenForm.code, flow.record.actorId, flow.now, token, grantId);
    assert FlowSound(crypto, w, flow);
    RedeemingAlone(crypto, base, w, id, op);
    var n := Ended(Calls(crypto, w, op), id);
    if Grants.Take(crypto.hash, w.store, op).1.Ok? {
      RedeemedKeeps(crypto, base, w, n, flow, op);
    }
  }

  lemma StepKeeps(crypto: Crypto, base: GrantState, w: World, a: Action)
    requires Inv(crypto, base, w)
    ensures Inv(crypto, base, Step(crypto, w, a))
  {
    if Step(crypto, w, a) != w {
      match a
      case Ask(id, form, _) => AskKeeps(crypto, base, w, id, form);
      case Authenticate(id, now, fails) =>
        if fails { EndKeeps(crypto, base, w, id); } else { AuthenticateKeeps(crypto, base, w, id, now); }
      case Pair(id, code, pairingId, fails) =>
        if fails { EndKeeps(crypto, base, w, id); } else { PairKeeps(crypto, base, w, id, code, pairingId); }
      case Publish(id) => PublishKeeps(crypto, base, w, id);
      case Exchange(id, form, now) => ExchangeKeeps(crypto, base, w, id, form, now);
      case RedeemCode(id, token, grantId, fails) =>
        if fails { EndKeeps(crypto, base, w, id); } else { RedeemKeeps(crypto, base, w, id, token, grantId); }
      case Other(op) => CallsKeep(crypto, base, w, op);
      case Restart =>
    }
  }

  lemma {:induction false} OAuthAlways(crypto: Crypto, base: GrantState, actions: seq<Action>)
    ensures Inv(crypto, base, Run(crypto, Start(base), actions))
  {
    if actions == [] {
    } else {
      var n := |actions| - 1;
      OAuthAlways(crypto, base, actions[..n]);
      StepKeeps(crypto, base, Run(crypto, Start(base), actions[..n]), actions[n]);
    }
  }

  // ------------------------------------------------------------------- what it comes to

  /**
   * Every token the exchange ever answers with was earned: the owner approved that code for that client and
   * redirect URI, the S256 hash of the verifier is the challenge that was approved, the code had not expired, and the
   * token carries exactly the approved scopes. No code, moreover, is exchanged for two tokens.
   */
  lemma EveryTokenEarned(crypto: Crypto, base: GrantState, actions: seq<Action>)
    ensures var n := Run(crypto, Start(base), actions);
            && (forall t | t in n.tokens :: Rightful(crypto, n.approvals, t))
            && (forall i, j | 0 <= i < j < |n.tokens| ::
                  crypto.hash(n.tokens[i].form.code) != crypto.hash(n.tokens[j].form.code))
  {
    OAuthAlways(crypto, base, actions);
  }

  /** A code buys one grant at most, exchanged here or redeemed by anyone as the pairing code it also is. */
  lemma CodeBuysOneGrant(crypto: Crypto, base: GrantState, actions: seq<Action>, h: string)
    requires h !in base.pairings
    ensures RedeemedTimes(crypto.hash, base, Run(crypto, Start(base), actions).ops, h) <= 1
  {
    OAuthAlways(crypto, base, actions);
    CodesBuyOnce(crypto.hash, base, Run(crypto, Start(base), actions).ops, h);
  }

  lemma StepTakenGrows(crypto: Crypto, w: World, a: Action)
    ensures w.taken <= Step(crypto, w, a).taken
  {
    match a
    case Ask(id, form, _) =>
    case Authenticate(id, now, _) =>
    case Pair(id, code, pairingId, _) =>
    case RedeemCode(id, token, grantId, _) =>
    case _ =>
  }

  lemma {:induction false} TakenGrows(crypto: Crypto, w: World, actions: seq<Action>)
    ensures w.taken <= Run(crypto, w, actions).taken
  {
    if actions != [] {
      var n := |actions| - 1;
      TakenGrows(crypto, w, actions[..n]);
      StepTakenGrows(crypto, Run(crypto, w, actions[..n]), actions[n]);
    }
  }

  lemma {:induction false} RunConcat(crypto: Crypto, w: World, first: seq<Action>, second: seq<Action>)
    ensures Run(crypto, w, first + second) == Run(crypto, Run(crypto, w, first), second)
  {
    if second == [] {
      assert first + second == first;
    } else {
      var n := |second| - 1;
      RunConcat(crypto, w, first, second[..n]);
      assert (first + second)[..|first + second| - 1] == first + second[..n];
    }
  }

  /** Nobody tries this code, and the gateway keeps running. */
  predicate LeavesCode(crypto: Crypto, a: Action, h: string) {
    !a.Restart? && (a.Exchange? ==> crypto.hash(a.tokenForm.code) != h)
  }

  /** The consents that are recorded on the way. */
  function Recorded(crypto: Crypto, w: World, actions: seq<Action>): seq<Approval> {
    if actions == [] then []
    else
      var n := |actions| - 1;
      var before, last := Run(crypto, w, actions[..n]), actions[n];
      Recorded(crypto, w, actions[..n])
      + if last.Publish? && last.id in before.flows && before.flows[last.id].Coded? then [before.flows[last.id].approval] else []
  }

  lemma CodeStays(crypto: Crypto, w: World, a: Action, h: string)
    requires h in w.codes && LeavesCode(crypto, a, h)
    ensures var n := Step(crypto, w, a);
            if a.Publish? && a.id in w.flows && w.flows[a.id].Coded? then
              var approval := w.flows[a.id].approval;
              crypto.hash(approval.code) != h ==>
                && (h in n.codes <==> approval.now < w.codes[h].expiresAt)
                && (h in n.codes ==> n.codes[h] == w.codes[h])
            else h in n.codes && n.codes[h] == w.codes[h]
  {}

  lemma CodeStaysAway(crypto: Crypto, w: World, a: Action, h: string)
    requires h !in w.codes
    requires a.Publish? && a.id in w.flows && w.flows[a.id].Coded? ==> crypto.hash(w.flows[a.id].approval.code) != h
    ensures h !in Step(crypto, w, a).codes
  {}

  /**
   * A remembered code that nobody tries is remembered, whatever else goes on, exactly until a consent is
   * recorded that was given when the code had expired.
   */
  lemma {:induction false} UntriedCodeLasts(crypto: Crypto, w: World, actions: seq<Action>, h: string)
    requires h in w.codes && forall a | a in actions :: LeavesCode(crypto, a, h)
    requires forall approval | approval in Recorded(crypto, w, actions) :: crypto.hash(approval.code) != h
    ensures var n := Run(crypto, w, actions);
            && (h in n.codes <==> forall a | a in Recorded(crypto, w, actions) :: a.now < w.codes[h].expiresAt)
            && (h in n.codes ==> n.codes[h] == w.codes[h])
  {
    if actions != [] {
      var n := |actions| - 1;
      UntriedCodeLasts(crypto, w, actions[..n], h);
      var before, last := Run(crypto, w, actions[..n]), actions[n];
      if last.Publish? && last.id in before.flows && before.flows[last.id].Coded? {
        assert before.flows[last.id].approval in Recorded(crypto, w, actions);
      }
      if h in before.codes {
        CodeStays(crypto, before, last, h);
      } else {
        CodeStaysAway(crypto, before, last, h);
      }
    }
  }

  /** An attempt on a known code burns it, right or wrong: from then on every further attempt is turned away. */
  lemma AttemptBurnsCode(
    crypto: Crypto, base: GrantState, before: seq<Action>, id: nat, form: TokenForm, now: u64, later: seq<Action>,
    again: nat, second: TokenForm, after: u64
  )
    requires var w := Run(crypto, Start(base), before);
             id !in w.flows && crypto.hash(form.code) in w.codes
    requires crypto.hash(second.code) == crypto.hash(form.code)
    ensures var n := Run(crypto, Start(base), before + [Exchange(id, form, now)] + later);
            crypto.hash(second.code) !in n.codes && Step(crypto, n, Exchange(again, second, after)) == n
  {
    var w := Run(crypto, Start(base), before);
    var attempt := [Exchange(id, form, now)];
    RunConcat(crypto, Start(base), before, attempt);
    assert attempt[..0] == [];
    var taken := Run(crypto, w, attempt);
    assert taken == Step(crypto, w, Exchange(id, form, now));
    assert taken.taken[|w.taken|] == crypto.hash(form.code);
    RunConcat(crypto, Start(base), before + attempt, later);
    TakenGrows(crypto, taken, later);
    OAuthAlways(crypto, base, before + attempt + later);
  }

  // ------------------------------------------------------------- the actor of the grants

  lemma ActorLength(clientId: string)
    ensures ByteLen(OAuthActor("local-pilot", clientId)) == 18 + ByteLen(clientId)
  {
    var prefix := "local-pilot" + ":oauth:";
    AsciiLength(prefix);
    Utf8Concat(prefix, clientId);
  }

  lemma ActorControls(clientId: string)
    ensures (exists c :: c in OAuthActor("local-pilot", clientId) && IsControl(c))
       <==> (exists c :: c in clientId && IsControl(c))
  {
    var actor := OAuthActor("local-pilot", clientId);
    assert forall c :: c in actor <==> c in "local-pilot" || c in ":oauth:" || c in clientId;
  }

  /** The actor written into a grant is one the file can be read back with exactly for client ids that are not too long. */
  lemma ActorValidExactly(clientId: string)
    ensures ValidId(OAuthActor("local-pilot", clientId))
       <==> ByteLen(clientId) <= 238 && forall c | c in clientId :: !IsControl(c)
  {
    var actor := OAuthActor("local-pilot", clientId);
    assert actor[0] == 'l' && actor[0] in actor && !IsWhitespace('l');
    ActorLength(clientId);
    ActorControls(clientId);
  }

  // -------------------------------------------------------------------- the consent page

  function ReplaceChar(s: string, c: char, with: string): string {
    if s == "" then "" else (if s[0] == c then with else [s[0]]) + ReplaceChar(s[1..], c, with)
  }

  function HtmlEscape(value: string): string {
    ReplaceChar(ReplaceChar(ReplaceChar(ReplaceChar(ReplaceChar(
      value, '&', "&amp;"), '<', "&lt;"), '>', "&gt;"), '"', "&quot;"), '\'', "&#39;")
  }

  function Entity(c: char): string {
    match c
    case '&' => "&amp;"
    case '<' => "&lt;"
    case '>' => "&gt;"
    case '"' => "&quot;"
    case '\'' => "&#39;"
    case _ => [c]
  }

  function Entities(value: string): string {
    if value == "" then "" else Entity(value[0]) + Entities(value[1..])
  }

  /** Reading entities back. */
  function Unescape(s: string): string {
    if s == "" then ""
    else if "&amp;" <= s then ['&'] + Unescape(s[5..])
    else if "&lt;" <= s then ['<'] + Unescape(s[4..])
    else if "&gt;" <= s then ['>'] + Unescape(s[4..])
    else if "&quot;" <= s then ['"'] + Unescape(s[6..])
    else if "&#39;" <= s then ['\''] + Unescape(s[5..])
    else [s[0]] + Unescape(s[1..])
  }

  lemma ConcatAssociates(a: string, b: string, c: string)
    ensures a + (b + c) == (a + b) + c
  {}

  lemma {:induction false} ReplaceConcat(a: string, b: string, c: char, with: string)
    ensures ReplaceChar(a + b, c, with) == ReplaceChar(a, c, with) + ReplaceChar(b, c, with)
  {
    if a == "" {
      assert a + b == b;
    } else {
      ReplaceConcat(a[1..], b, c, with);
      assert (a + b)[1..] == a[1..] + b && (a + b)[0] == a[0];
      var head, x, y := if a[0] == c then with else [a[0]], ReplaceChar(a[1..], c, with), ReplaceChar(b, c, with);
      assert ReplaceChar(a, c, with) == head + x;
      assert ReplaceChar(a + b, c, with) == head + (x + y);
      ConcatAssociates(head, x, y);
    }
  }

  lemma {:induction false} ReplaceAbsent(s: string, c: char, with: string)
    requires c !in s
    ensures ReplaceChar(s, c, with) == s
  {
    if s != "" {
      ReplaceAbsent(s[1..], c, with);
    }
  }

  lemma ReplaceOne(c: char, d: char, with: string)
    ensures ReplaceChar([c], d, with) == if c == d then with else [c]
  {
    assert ReplaceChar("", d, with) == "";
    assert [c][1..] == "";
  }

  /** Once the ampersands are done, text without the other four characters is left alone. */
  lemma EntityStays(e: string)
    requires '\'' !in e
    ensures ReplaceChar(e, '\'', "&#39;") == e
    ensures '"' !in e ==> ReplaceChar(e, '"', "&quot;") == e
    ensures '>' !in e ==> ReplaceChar(e, '>', "&gt;") == e
    ensures '<' !in e ==> ReplaceChar(e, '<', "&lt;") == e
  {
    ReplaceAbsent(e, '\'', "&#39;");
    if '"' !in e { ReplaceAbsent(e, '"', "&quot;"); }
    if '>' !in e { ReplaceAbsent(e, '>', "&gt;"); }
    if '<' !in e { ReplaceAbsent(e, '<', "&lt;"); }
  }

  lemma EntityPlain(c: char)
    requires c == '&' || c == '<' || c == '>' || c == '"'
    ensures '<' !in Entity(c) && '>' !in Entity(c) && '"' !in Entity(c) && '\'' !in Entity(c)
  {}

  lemma EscapeOne(c: char)
    ensures HtmlEscape([c]) == Entity(c)
  {
    ReplaceOne(c, '&', "&amp;");
    ReplaceOne(c, '<', "&lt;");
    ReplaceOne(c, '>', "&gt;");
    ReplaceOne(c, '"', "&quot;");
    ReplaceOne(c, '\'', "&#39;");
    if c == '&' || c == '<' || c == '>' || c == '"' {
      EntityPlain(c);
      EntityStays(Entity(c));
    }
  }

  lemma EscapeConcat(a: string, b: string)
    ensures HtmlEscape(a + b) == HtmlEscape(a) + HtmlEscape(b)
  {
    var a1, b1 := ReplaceChar(a, '&', "&amp;"), ReplaceChar(b, '&', "&amp;");
    var a2, b2 := ReplaceChar(a1, '<', "&lt;"), ReplaceChar(b1, '<', "&lt;");
    var a3, b3 := ReplaceChar(a2, '>', "&gt;"), ReplaceChar(b2, '>', "&gt;");
    var a4, b4 := ReplaceChar(a3, '"', "&quot;"), ReplaceChar(b3, '"', "&quot;");
    ReplaceConcat(a, b, '&', "&amp;");
    ReplaceConcat(a1, b1, '<', "&lt;");
    ReplaceConcat(a2, b2, '>', "&gt;");
    ReplaceConcat(a3, b3, '"', "&quot;");
    ReplaceConcat(a4, b4, '\'', "&#39;");
  }

  /** The five replacements in a row, ampersands first, replace every character once. */
  lemma {:induction false} EscapeExactly(value: string)
    ensures HtmlEscape(value) == Entities(value)
  {
    if value != "" {
      EscapeOne(value[0]);
      EscapeConcat([value[0]], value[1..]);
      assert value == [value[0]] + value[1..];
      EscapeExactly(value[1..]);
    }
  }

  lemma UnescapeEntity(c: char, rest: string)
    ensures Unescape(Entity(c) + rest) == [c] + Unescape(rest)
  {
    var s := Entity(c) + rest;
    assert s[|Entity(c)|..] == rest;
    if c == '&' {
      assert s[1] == 'a';
    } else if c == '<' {
      assert s[1] == 'l';
    } else if c == '>' {
      assert s[1] == 'g';
    } else if c == '"' {
      assert s[1] == 'q';
    } else if c == '\'' {
      assert s[1] == '#';
    } else {
      assert s[0] == c;
    }
  }

  predicate Special(c: char) {
    c == '<' || c == '>' || c == '"' || c == '\''
  }

  lemma EntityNotSpecial(c: char)
    ensures forall x | x in Entity(c) :: !Special(x)
  {}

  lemma {:induction false} EntitiesSafe(value: string)
    ensures (forall x | x in Entities(value) :: !Special(x)) && Unescape(Entities(value)) == value
  {
    if value != "" {
      EntitiesSafe(value[1..]);
      EntityNotSpecial(value[0]);
      UnescapeEntity(value[0], Entities(value[1..]));
    }
  }

  /** Escaped text cannot leave the attribute or element it is put in, and loses nothing. */
  lemma EscapedTextIsSafe(value: string)
    ensures forall x | x in HtmlEscape(value) :: !Special(x)
    ensures Unescape(HtmlEscape(value)) == value
  {
    EscapeExactly(value);
    EntitiesSafe(value);
  }

  // ---------------------------------------------------------------------- the gateway

  /** A moment at which the gateway serves nobody. */
  function Quiet(store: GrantState, codes: map<string, CodeRecord>): World {
    World(store, codes, map[], store.pairings.Keys, [], [], [], [])
  }

  /** Which of the three calls on the store fail while the owner's consent is served. */
  datatype Failing = Failing(ask: bool, authenticate: bool, pair: bool)

  const NOTHING_FAILS := Failing(false, false, false)

  function Authorized(crypto: Crypto, w: World, form: Form, now: u64, code: string, pairingId: string, fails: Failing)
    : World
  {
    var asked := Step(crypto, w, Ask(0, form, fails.ask));
    var owned := Step(crypto, asked, Authenticate(0, now, fails.authenticate));
    Step(crypto, Step(crypto, owned, Pair(0, code, pairingId, fails.pair)), Publish(0))
  }

  lemma QueriesLeave(hash: Hash, s: GrantState, op: Op)
    requires op.LookUp? || op.Validate?
    ensures var (n, r) := Grants.Take(hash, s, op);
            && n == s && (r.Ok? ==> if op.LookUp? then r.value.Found? else r.value.Accepted?)
  {
    Taken(hash, s, op);
  }

  /** The client and the scopes that a request asks for, if it is acceptable. */
  function Requested(crypto: Crypto, store: GrantState, form: Form): Option<(Client, seq<string>)> {
    var found := Grants.Take(crypto.hash, store, LookUp(form.clientId)).1;
    if found.Err? || !found.value.Found? then None else ValidateAuthorization(form, found.value.maybeClient)
  }

  /** The owner's grant, if the token is good for this. */
  function Owner(crypto: Crypto, store: GrantState, form: Form, now: u64): Result<Grant, AuthError> {
    var r := Grants.Take(crypto.hash, store, Validate(form.ownerToken, "mcp", now)).1;
    if r.Err? then Err(r.error) else if r.value.Accepted? then Ok(r.value.grant) else Err(Unauthorized)
  }

  /** The token is good, and the owner's own. */
  predicate IsOwners(crypto: Crypto, store: GrantState, form: Form, now: u64) {
    var owner := Owner(crypto, store, form, now);
    owner.Ok? && owner.value.actorId == "local-pilot"
  }

  /**
   * A request that is not acceptable, or that the owner does not agree to, or that the store fails, leaves
   * everything as it was.
   */
  lemma AuthorizeRefused(crypto: Crypto, w: World, form: Form, now: u64, code: string, pairingId: string, fails: Failing)
    requires w.flows == map[]
    requires || fails.ask || Requested(crypto, w.store, form).None?
             || fails.authenticate || !IsOwners(crypto, w.store, form, now) || fails.pair
    ensures var n := Authorized(crypto, w, form, now, code, pairingId, fails);
            n.store == w.store && n.codes == w.codes && n.approvals == w.approvals
  {
    var asked := Step(crypto, w, Ask(0, form, fails.ask));
    assert asked == w || (asked.flows == map[0 := asked.flows[0]] && asked == w.(flows := asked.flows));
    var owned := Step(crypto, asked, Authenticate(0, now, fails.authenticate));
    assert owned.flows == map[] || (fails.pair && owned.flows == map[0 := owned.flows[0]]);
    assert owned == w.(flows := owned.flows);
    var paired := Step(crypto, owned, Pair(0, code, pairingId, fails.pair));
    assert paired == w.(flows := paired.flows) && paired.flows == map[];
  }

  /** What the owner agrees to is offered as a pairing and remembered. */
  lemma AuthorizeAgreed(crypto: Crypto, w: World, form: Form, now: u64, code: string, pairingId: string, client: Client,
                        scopes: seq<string>, owner: Grant)
    requires w.flows == map[] && crypto.hash(code) !in w.used
    requires Requested(crypto, w.store, form) == Some((client, scopes))
    requires Owner(crypto, w.store, form, now) == Ok(owner) && owner.actorId == "local-pilot"
    ensures var op := CreatePairing(AsSet(scopes), CODE_TTL, ACCESS_TTL, now, code, pairingId);
            var (store, r) := Grants.Take(crypto.hash, w.store, op);
            var a := Approval(form, client, owner, scopes, now, code);
            var n := Authorized(crypto, w, form, now, code, pairingId, NOTHING_FAILS);
            && n.store == store
            && n.codes == (if r.Err? then w.codes else Published(w.codes, crypto.hash(code), RecordOf(a), now))
            && n.approvals == (if r.Err? then w.approvals else w.approvals + [a])
  {
    var asked := Step(crypto, w, Ask(0, form, false));
    RequestedClient(crypto, w.store, form);
    assert asked == Goes(w, 0, Consenting(form, client, scopes));
    var owned := Step(crypto, asked, Authenticate(0, now, false));
    assert owned == Goes(asked, 0, Owned(form, client, scopes, owner, now));
  }

  lemma RequestedClient(crypto: Crypto, store: GrantState, form: Form)
    requires Requested(crypto, store, form).Some?
    ensures Grants.Take(crypto.hash, store, LookUp(form.clientId)).1
         == Ok(Found(Some(Requested(crypto, store, form).value.0)))
  {}

  function Exchanged(crypto: Crypto, w: World, form: TokenForm, now: u64, token: string, grantId: string, fails: bool)
    : World
  {
    Step(crypto, Step(crypto, w, Exchange(0, form, now)), RedeemCode(0, token, grantId, fails))
  }

  /** One exchange at a quiet moment: when it yields a token, and which. A store that fails yields none. */
  lemma ExchangeExactly(crypto: Crypto, store: GrantState, codes: map<string, CodeRecord>, form: TokenForm, now: u64,
                        token: string, grantId: string, fails: bool)
    ensures var h := crypto.hash(form.code);
            var n := Exchanged(crypto, Quiet(store, codes), form, now, token, grantId, fails);
            if h in codes && Exchanges(crypto, form, codes[h], now) && !fails then
              var r := Grants.Take(crypto.hash, store, Redeem(form.code, codes[h].actorId, now, token, grantId)).1;
              n.tokens == if r.Ok? && r.value.Issued? then [IssuedToken(form, now, r.value.token, r.value.grant)] else []
            else n.tokens == []
  {
    var w := Quiet(store, codes);
    var h := crypto.hash(form.code);
    var taken := Step(crypto, w, Exchange(0, form, now));
    if h in codes {
      AcceptableExactly(crypto, form, codes[h], now);
    }
    if h in codes && Acceptable(crypto, form, codes[h], now) {
      assert taken.flows == map[0 := Redeeming(form, codes[h], now)];
    } else {
      assert taken.flows == map[];
    }
  }

  lemma ActorNotBlank(clientId: string)
    ensures !Blank(OAuthActor("local-pilot", clientId))
  {
    var actor := OAuthActor("local-pilot", clientId);
    assert actor[0] == 'l' && actor[0] in actor && !IsWhitespace('l');
  }

  lemma RedeemAnswers(hash: Hash, s: GrantState, op: Op)
    requires op.Redeem? && Grants.Take(hash, s, op).1.Ok?
    ensures Grants.Take(hash, s, op).1.value.Issued? && Grants.Take(hash, s, op).1.value.token == op.token
  {
    Taken(hash, s, op);
  }

  function Offer(a: Approval, pairingId: string): Op {
    CreatePairing(AsSet(a.scopes), CODE_TTL, ACCESS_TTL, a.now, a.code, pairingId)
  }

  /** The store answers the client and the owner as the approval says. */
  predicate Attested(crypto: Crypto, store: GrantState, a: Approval) {
    && Grants.Take(crypto.hash, store, LookUp(a.form.clientId)).1 == Ok(Found(Some(a.client)))
    && Grants.Take(crypto.hash, store, Validate(a.form.ownerToken, "mcp", a.now)).1 == Ok(Accepted(a.owner))
  }

  lemma AttestedRequest(crypto: Crypto, store: GrantState, a: Approval)
    requires Proper(a) && Attested(crypto, store, a)
    ensures Requested(crypto, store, a.form) == Some((a.client, a.scopes))
    ensures Owner(crypto, store, a.form, a.now) == Ok(a.owner)
  {}

  lemma ProperScopes(a: Approval)
    requires Proper(a)
    ensures NonBlank(AsSet(a.scopes)) == AsSet(a.scopes) && AsSet(a.scopes) != {}
  {
    ScopesNotBlank(Some(a.form.scope));
    ScopesGranted(Some(a.form.scope));
    assert "mcp" in AsSet(a.scopes);
  }

  lemma OfferTaken(hash: Hash, s: GrantState, op: Op)
    requires op.CreatePairing? && Complaint(op).None? && Fault(s).None?
    ensures Grants.Take(hash, s, op).1.Ok?
  {
    Taken(hash, s, op);
  }

  lemma OfferIsSound(a: Approval, pairingId: string)
    requires Proper(a) && a.now + CODE_TTL <= U64_MAX
    ensures Complaint(Offer(a, pairingId)).None?
  {
    ProperScopes(a);
  }

  lemma ConsentOffers(crypto: Crypto, store: GrantState, codes: map<string, CodeRecord>, a: Approval, pairingId: string)
    requires Proper(a) && Attested(crypto, store, a) && crypto.hash(a.code) !in store.pairings && Fault(store).None?
    requires a.now + CODE_TTL <= U64_MAX
    ensures Complaint(Offer(a, pairingId)).None?
    ensures var agreed := Authorized(crypto, Quiet(store, codes), a.form, a.now, a.code, pairingId, NOTHING_FAILS);
            && agreed.approvals == [a] && agreed.store == Grants.Take(crypto.hash, store, Offer(a, pairingId)).0
            && agreed.codes == Published(codes, crypto.hash(a.code), RecordOf(a), a.now)
  {
    AttestedRequest(crypto, store, a);
    AuthorizeAgreed(crypto, Quiet(store, codes), a.form, a.now, a.code, pairingId, a.client, a.scopes, a.owner);
    OfferIsSound(a, pairingId);
    OfferTaken(crypto.hash, store, Offer(a, pairingId));
  }

  lemma OfferIsGood(crypto: Crypto, store: GrantState, a: Approval, pairingId: string, now: u64, token: string, grantId: string)
    requires Proper(a) && Fault(store).None? && Complaint(Offer(a, pairingId)).None? && a.code != ""
    requires now + ACCESS_TTL <= U64_MAX
    ensures var offered := Grants.Take(crypto.hash, store, Offer(a, pairingId)).0;
            var r := Grants.Take(crypto.hash, offered, Redeem(a.code, RecordOf(a).actorId, now, token, grantId)).1;
            && (r.Ok? <==> now < a.now + CODE_TTL)
            && (r.Ok? ==> r.value.Issued? && r.value.token == token && r.value.grant.scopes == AsSet(a.scopes)
                          && ThirtyDays(r.value.grant, now))
  {
    var offered := Grants.Take(crypto.hash, store, Offer(a, pairingId)).0;
    var redeem := Redeem(a.code, RecordOf(a).actorId, now, token, grantId);
    ActorNotBlank(a.form.clientId);
    ProperScopes(a);
    OfferedCodeRedeems(crypto.hash, store, Offer(a, pairingId), redeem);
    if Grants.Take(crypto.hash, offered, redeem).1.Ok? {
      RedeemAnswers(crypto.hash, offered, redeem);
    }
  }

  /**
   * The flow works for whom it is meant: after the owner's consent the client that presents its code, redirect
   * URI and verifier in time gets a token for the approved scopes; any one of them wrong, or late, and there is
   * none.
   */
  lemma HonestClientGetsToken(
    crypto: Crypto, store: GrantState, codes: map<string, CodeRecord>, a: Approval, pairingId: string,
    form: TokenForm, now: u64, token: string, grantId: string
  )
    requires Proper(a) && Attested(crypto, store, a) && crypto.hash(a.code) !in store.pairings && Fault(store).None?
    requires a.now + CODE_TTL <= U64_MAX && now + ACCESS_TTL <= U64_MAX && a.code != ""
    requires form.code == a.code
    ensures var agreed := Authorized(crypto, Quiet(store, codes), a.form, a.now, a.code, pairingId, NOTHING_FAILS);
            var n := Exchanged(crypto, Quiet(agreed.store, agreed.codes), form, now, token, grantId, false);
            && agreed.approvals == [a]
            && (|n.tokens| == 1 <==>
                  && form.clientId == a.form.clientId && form.redirectUri == a.form.redirectUri
                  && crypto.s256(form.verifier) == a.form.challenge && IsVerifier(form.verifier)
                  && now < a.now + 300_000)
            && (|n.tokens| == 1 ==> n.tokens[0].token == token && n.tokens[0].grant.scopes == AsSet(a.scopes)
                                    && n.tokens[0].grant.expiresAt == now + 2_592_000_000)
            && |n.tokens| <= 1
  {
    ConsentOffers(crypto, store, codes, a, pairingId);
    OfferIsGood(crypto, store, a, pairingId, now, token, grantId);
    var agreed := Authorized(crypto, Quiet(store, codes), a.form, a.now, a.code, pairingId, NOTHING_FAILS);
    ExchangeExactly(crypto, agreed.store, agreed.codes, form, now, token, grantId, false);
  }

  // ------------------------------------------------------------------ a store that fails

  /** The call does not succeed, the system's failures included. */
  predicate Struck(hash: Hash, faults: Stores.Faults, s: GrantState, op: Op) {
    Stores.Served(GrantSpec(hash), faults, s, op).1.Err?
  }

  /** A call either does what it does when nothing fails, or nothing. */
  lemma StruckOrServed(hash: Hash, faults: Stores.Faults, s: GrantState, op: Op)
    ensures var served := Stores.Served(GrantSpec(hash), faults, s, op);
            if Struck(hash, faults, s, op) then served.0 == s else served == Grants.Take(hash, s, op)
  {
    if Early(op).None? {
      var change := (t: GrantState) => Apply(hash, t, op);
      ServedUnderLock(hash, faults, s, op, change);
      ServedUnderLock(hash, Stores.NO_FAULTS, s, op, change);
    }
  }

  /** How the system treats the calls on the store that one request makes. */
  datatype ConsentFaults = ConsentFaults(lookUp: Stores.Faults, validate: Stores.Faults, offer: Stores.Faults)

  function Reading(faults: Stores.Faults): Stores.Faults {
    faults.(write := None)
  }

  function Failures(crypto: Crypto, store: GrantState, form: Form, now: u64, code: string, pairingId: string,
                    faults: ConsentFaults): Failing
  {
    var request := Requested(crypto, store, form);
    Failing(Struck(crypto.hash, Reading(faults.lookUp), store, LookUp(form.clientId)),
            Struck(crypto.hash, Reading(faults.validate), store, Validate(form.ownerToken, "mcp", now)),
            request.Some? && Struck(crypto.hash, faults.offer, store,
                                    CreatePairing(AsSet(request.value.1), CODE_TTL, ACCESS_TTL, now, code, pairingId)))
  }

  datatype Response = Redirect(code: string) | Granted(token: string, grant: Grant) | Refused(status: nat)

  /** The gateway's memory of the codes it has handed out; the store is reached through `grants`. */
  class OAuthRuntime {
    const crypto: Crypto
    const grants: GrantStore
    var codes: map<string, CodeRecord>

    constructor (crypto: Crypto, grants: GrantStore)
      ensures this.crypto == crypto && this.grants == grants && codes == map[]
    {
      this.crypto := crypto;
      this.grants := grants;
      codes := map[];
    }

    ghost predicate Valid()
      reads this, grants, grants.file
    {
      grants.hash == crypto.hash && grants.file.contents.Some?
    }

    ghost function World(): World
      requires Valid()
      reads this, grants, grants.file
    {
      Quiet(grants.file.contents.value, codes)
    }

    /**
     * The owner's consent, and the code that answers it: the four steps of one request, with nothing between them,
     * whichever calls on the store fail.
     */
    method AuthorizePost(form: Form, now: u64, code: string, pairingId: string, faults: ConsentFaults)
      returns (answer: Response)
      requires Valid() && crypto.hash(code) !in grants.file.contents.value.pairings
      modifies this`codes, grants`state, grants.file
      ensures Valid()
      ensures var w := old(World());
              var fails := Failures(crypto, w.store, form, now, code, pairingId, faults);
              var n := Authorized(crypto, w, form, now, code, pairingId, fails);
              && grants.file.contents.value == n.store && codes == n.codes
              && (answer == Redirect(code) <==> n.approvals != []) && (answer.Refused? <==> n.approvals == [])
              && (answer == Refused(400) <==> fails.ask || Requested(crypto, w.store, form).None?)
              && (answer == Refused(401) <==> answer != Refused(400) && fails.authenticate)
              && (answer == Refused(403) <==>
                    answer != Refused(400) && answer != Refused(401) && !IsOwners(crypto, w.store, form, now))
              && (answer.Refused? ==> answer.status in {400, 401, 403, 500})
    {
      ghost var w := World();
      ghost var fails := Failures(crypto, w.store, form, now, code, pairingId, faults);
      var request := CheckRequest(form, faults.lookUp);
      if request.None? {
        AuthorizeRefused(crypto, w, form, now, code, pairingId, fails);
        return Refused(400);
      }
      var owner := CheckOwner(form, now, faults.validate);
      if owner.Err? || owner.value.actorId != "local-pilot" {
        AuthorizeRefused(crypto, w, form, now, code, pairingId, fails);
        return Refused(if owner.Err? then 401 else 403);
      }
      answer := OfferCode(form, now, code, pairingId, request.value.0, request.value.1, owner.value, faults);
    }

    /** The code is offered as a pairing and, if that works, remembered. */
    method OfferCode(form: Form, now: u64, code: string, pairingId: string, client: Client, scopes: seq<string>,
                     owner: Grant, faults: ConsentFaults)
      returns (answer: Response)
      requires Valid() && crypto.hash(code) !in grants.file.contents.value.pairings
      requires Requested(crypto, World().store, form) == Some((client, scopes))
      requires Owner(crypto, World().store, form, now) == Ok(owner) && owner.actorId == "local-pilot"
      requires !Failures(crypto, World().store, form, now, code, pairingId, faults).ask
      requires !Failures(crypto, World().store, form, now, code, pairingId, faults).authenticate
      modifies this`codes, grants`state, grants.file
      ensures Valid()
      ensures var w := old(World());
              var fails := Failures(crypto, w.store, form, now, code, pairingId, faults);
              var n := Authorized(crypto, w, form, now, code, pairingId, fails);
              && grants.file.contents.value == n.store && codes == n.codes
              && answer == (if fails.pair then Refused(500) else Redirect(code))
              && (fails.pair <==> n.approvals == [])
    {
      ghost var w := World();
      ghost var fails := Failures(crypto, w.store, form, now, code, pairingId, faults);
      StruckOrServed(crypto.hash, faults.offer, w.store,
                     CreatePairing(AsSet(scopes), CODE_TTL, ACCESS_TTL, now, code, pairingId));
      var pairing := grants.CreatePairing(AsSet(scopes), CODE_TTL, ACCESS_TTL, now, code, pairingId, faults.offer);
      if pairing.Err? {
        AuthorizeRefused(crypto, w, form, now, code, pairingId, fails);
        return Refused(500);
      }
      assert fails == NOTHING_FAILS;
      AuthorizeAgreed(crypto, w, form, now, code, pairingId, client, scopes, owner);
      var record := CodeRecord(form.clientId, form.redirectUri, form.challenge, scopes,
                               OAuthActor(owner.actorId, form.clientId), SaturatingAdd(now, CODE_TTL));
      codes := map k | k in codes && codes[k].expiresAt > now :: codes[k];
      codes := codes[crypto.hash(code) := record];
      answer := Redirect(code);
    }

    method CheckRequest(form: Form, faults: Stores.Faults) returns (r: Option<(Client, seq<string>)>)
      requires Valid()
      modifies grants`state
      ensures Valid() && grants.file.contents == old(grants.file.contents) && codes == old(codes)
      ensures var store := grants.file.contents.value;
              if r.Some? then !Struck(crypto.hash, Reading(faults), store, LookUp(form.clientId))
                              && Requested(crypto, store, form) == r
              else Struck(crypto.hash, Reading(faults), store, LookUp(form.clientId)) || Requested(crypto, store, form).None?
    {
      ghost var store := grants.file.contents.value;
      QueriesLeave(crypto.hash, store, LookUp(form.clientId));
      StruckOrServed(crypto.hash, Reading(faults), store, LookUp(form.clientId));
      if !WellFormed(form) {
        return None;
      }
      var client := grants.OAuthClient(form.clientId, faults);
      if client.Err? || client.value.maybeClient.None? {
        return None;
      }
      if form.redirectUri !in client.value.maybeClient.value.redirectUris {
        return None;
      }
      var scopes := ParseScopes(Some(form.scope));
      r := if scopes.None? then None else Some((client.value.maybeClient.value, scopes.value));
    }

    method CheckOwner(form: Form, now: u64, faults: Stores.Faults) returns (r: Result<Grant, AuthError>)
      requires Valid()
      modifies grants`state
      ensures Valid() && grants.file.contents == old(grants.file.contents) && codes == old(codes)
      ensures var store := grants.file.contents.value;
              if r.Ok? then !Struck(crypto.hash, Reading(faults), store, Validate(form.ownerToken, "mcp", now))
                            && Owner(crypto, store, form, now) == r
              else Struck(crypto.hash, Reading(faults), store, Validate(form.ownerToken, "mcp", now))
    {
      ghost var store := grants.file.contents.value;
      QueriesLeave(crypto.hash, store, Validate(form.ownerToken, "mcp", now));
      StruckOrServed(crypto.hash, Reading(faults), store, Validate(form.ownerToken, "mcp", now));
      var owner := grants.Validate(form.ownerToken, "mcp", now, faults);
      r := if owner.Err? then Err(owner.error) else Ok(owner.value.grant);
    }

    /** One exchange, with nothing between its two steps: the code is gone from memory even if the store then fails. */
    method ExchangeAuthorizationCode(form: TokenForm, now: u64, token: string, grantId: string, faults: Stores.Faults)
      returns (answer: Response)
      requires Valid()
      modifies this`codes, grants`state, grants.file
      ensures Valid() && codes == old(codes) - {crypto.hash(form.code)}
      ensures var w, h := old(World()), crypto.hash(form.code);
              var fails := h in w.codes
                && Struck(crypto.hash, faults, w.store, Redeem(form.code, w.codes[h].actorId, now, token, grantId));
              var n := Exchanged(crypto, w, form, now, token, grantId, fails);
              && grants.file.contents.value == n.store && codes == n.codes
              && answer == (if n.tokens == [] then Refused(400) else Granted(n.tokens[0].token, n.tokens[0].grant))
              && (answer.Granted? <==> h in w.codes && Exchanges(crypto, form, w.codes[h], now) && !fails)
    {
      var h := crypto.hash(form.code);
      if h in codes {
        AcceptableExactly(crypto, form, codes[h], now);
      }
      if h !in codes {
        return Refused(400);
      }
      var record := codes[h];
      codes := codes - {h};
      if || record.expiresAt <= now || record.clientId != form.clientId || record.redirectUri != form.redirectUri
         || !VerifyPkce(crypto, form.verifier, record.challenge)
      {
        return Refused(400);
      }
      StruckOrServed(crypto.hash, faults, grants.file.contents.value,
                     Redeem(form.code, record.actorId, now, token, grantId));
      var issued := grants.RedeemPairing(form.code, record.actorId, now, token, grantId, faults);
      if issued.Err? {
        return Refused(400);
      }
      RedeemAnswers(crypto.hash, old(grants.file.contents.value),
                    Redeem(form.code, record.actorId, now, token, grantId));
      answer := Granted(issued.value.token, issued.value.grant);
    }
  }
}
