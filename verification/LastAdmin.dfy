/**
 * Who administers: the account operations that change a role, a status or the source of an
 * authority (src/accounts/service.ts), each one transaction.
 *
 * Role and scope columns hold only the words the database's own checks allow; issuers, subjects
 * and account ids are only compared, so numbers stand for them.
 */
module LastAdmin {
  import opened Wrappers

  type UserId = nat
  type Issuer = nat

  datatype Role = Auditor | Operator | Admin
  datatype Scope = Read | Write | Apply | Administer
  datatype Status = Active | Suspended | Deleted
  datatype Source = Local | Idp

  datatype Authority = Authority(role: Role, grant: seq<Scope>, deny: seq<Scope>)

  datatype User = User(authority: Authority, status: Status, source: Source, totp: bool)
  datatype Link = Link(issuer: Issuer, subject: nat, user: UserId)

  /** `rules`: its users are all governed by the identity provider; `mapped`: claim and role map are set. */
  datatype Provider = Provider(rules: bool, mapped: bool)

  datatype Store = Store(users: map<UserId, User>, links: set<Link>, providers: map<Issuer, Provider>)

  datatype Refusal =
    Malformed | NoUser | RoleFromIdp | NoIdentity | LastAdmin | NeedsFactor | RolesNotConfigured

  datatype Patch = Patch(role: Option<string>, status: Option<string>, source: Option<string>)

  // ------------------------------------------------------------------ scopes

  const ALL_SCOPES: seq<Scope> := [Read, Write, Apply, Administer]

  function ScopesOfRole(r: Role): seq<Scope> {
    match r
    case Auditor => [Read]
    case Operator => [Read, Write]
    case Admin => [Read, Write, Apply, Administer]
  }

  /** Everybody reads, operators also write, admins do everything. */
  lemma RolesGrantExactly(r: Role, x: Scope)
    ensures x in ScopesOfRole(r) <==> x == Read || (x == Write && r != Auditor) || r == Admin
  {
    if r == Admin {
      assert ScopesOfRole(r)[0] == Read && ScopesOfRole(r)[1] == Write && ScopesOfRole(r)[2] == Apply && ScopesOfRole(r)[3] == Administer;
      match x case Read => case Write => case Apply => case Administer =>
    }
  }

  function Among(order: seq<Scope>, xs: seq<Scope>): seq<Scope> {
    if order == [] then [] else (if order[0] in xs then [order[0]] else []) + Among(order[1..], xs)
  }

  function NormScopes(xs: seq<Scope>): seq<Scope> { Among(ALL_SCOPES, xs) }

  function Without(xs: seq<Scope>, ys: seq<Scope>): seq<Scope> {
    if xs == [] then [] else (if xs[0] in ys then [] else [xs[0]]) + Without(xs[1..], ys)
  }

  function EffectiveScopes(a: Authority): seq<Scope> {
    NormScopes(Without(ScopesOfRole(a.role) + a.grant, a.deny))
  }

  /** `authorityOfRow`: the lists come out in the fixed order, once each. */
  function AuthorityOf(u: User): Authority {
    Authority(u.authority.role, NormScopes(u.authority.grant), NormScopes(u.authority.deny))
  }

  predicate Administers(a: Authority) { Administer in EffectiveScopes(a) }

  /** The condition written in SQL, over the raw columns. */
  predicate AdminSql(u: User) {
    (u.authority.role == Admin || Administer in u.authority.grant) && !(Administer in u.authority.deny)
  }

  lemma {:induction false} AmongIs(order: seq<Scope>, xs: seq<Scope>, x: Scope)
    ensures x in Among(order, xs) <==> x in order && x in xs
  {
    if order != [] {
      AmongIs(order[1..], xs, x);
      assert order == [order[0]] + order[1..];
    }
  }

  lemma {:induction false} WithoutIs(xs: seq<Scope>, ys: seq<Scope>, x: Scope)
    ensures x in Without(xs, ys) <==> x in xs && x !in ys
  {
    if xs != [] {
      WithoutIs(xs[1..], ys, x);
      assert xs == [xs[0]] + xs[1..];
    }
  }

  lemma NormIs(xs: seq<Scope>, x: Scope)
    ensures x in NormScopes(xs) <==> x in xs
  {
    AmongIs(ALL_SCOPES, xs, x);
    match x
    case Read => assert ALL_SCOPES[0] == x;
    case Write => assert ALL_SCOPES[1] == x;
    case Apply => assert ALL_SCOPES[2] == x;
    case Administer => assert ALL_SCOPES[3] == x;
  }

  /** Role scopes and grants, less what is denied: a denial always wins. */
  lemma ScopesAreExact(a: Authority, x: Scope)
    ensures x in EffectiveScopes(a) <==> (x in ScopesOfRole(a.role) || x in a.grant) && x !in a.deny
  {
    var all := ScopesOfRole(a.role) + a.grant;
    NormIs(Without(all, a.deny), x);
    WithoutIs(all, a.deny, x);
  }

  lemma {:induction false} AmongSame(order: seq<Scope>, xs: seq<Scope>, ys: seq<Scope>)
    requires forall x :: x in xs <==> x in ys
    ensures Among(order, xs) == Among(order, ys)
  {
    if order != [] { AmongSame(order[1..], xs, ys); }
  }

  /** Order and repetition in the stored lists do not matter. */
  lemma RowScopesAreExact(u: User)
    ensures EffectiveScopes(AuthorityOf(u)) == EffectiveScopes(u.authority)
  {
    var a, b := u.authority, AuthorityOf(u);
    var xs, ys := Without(ScopesOfRole(b.role) + b.grant, b.deny), Without(ScopesOfRole(a.role) + a.grant, a.deny);
    forall x ensures x in xs <==> x in ys {
      WithoutIs(ScopesOfRole(b.role) + b.grant, b.deny, x);
      WithoutIs(ScopesOfRole(a.role) + a.grant, a.deny, x);
      NormIs(a.grant, x);
      NormIs(a.deny, x);
    }
    AmongSame(ALL_SCOPES, xs, ys);
  }

  lemma AdministersIs(a: Authority)
    ensures Administers(a) <==> (a.role == Admin || Administer in a.grant) && Administer !in a.deny
  {
    ScopesAreExact(a, Administer);
    assert ScopesOfRole(Admin)[3] == Administer;
  }

  /** The SQL condition and the scopes the program computes agree on every row. */
  lemma AdminSqlAgrees(u: User)
    ensures AdminSql(u) <==> Administer in EffectiveScopes(AuthorityOf(u))
  {
    RowScopesAreExact(u);
    AdministersIs(u.authority);
  }

  // ------------------------------------------------------------------ who governs an account

  predicate Linked(s: Store, id: UserId) { exists l | l in s.links :: l.user == id }

  predicate Governs(s: Store, l: Link) { l.issuer in s.providers && s.providers[l.issuer].rules }

  /** Some provider the account is linked to governs all its users. */
  predicate ByProvider(s: Store, id: UserId) { exists l | l in s.links :: l.user == id && Governs(s, l) }

  predicate IdpRules(s: Store, id: UserId) { (id in s.users && s.users[id].source == Idp) || ByProvider(s, id) }

  /** A second factor: a link to the provider whose one-time codes are in use, or a confirmed app. */
  predicate HasFactor(s: Store, otp: Option<Issuer>, id: UserId) {
    || (otp.Some? && exists l | l in s.links :: l.user == id && l.issuer == otp.value)
    || (id in s.users && s.users[id].totp)
  }

  predicate ActiveAdmin(s: Store, id: UserId) { id in s.users && s.users[id].status == Active && AdminSql(s.users[id]) }

  predicate HasActiveAdmin(s: Store) { exists id | id in s.users :: ActiveAdmin(s, id) }

  /** The rows `#guardLastAdmin` counts. */
  predicate NoOtherAdmin(s: Store, id: UserId) { forall x | x in s.users :: x != id ==> !ActiveAdmin(s, x) }

  // ------------------------------------------------------------------ the operations

  function RoleNamed(w: string): Option<Role> {
    if w == "auditor" then Some(Auditor) else if w == "operator" then Some(Operator)
    else if w == "admin" then Some(Admin) else None
  }

  function SourceNamed(w: string): Option<Source> {
    if w == "local" then Some(Local) else if w == "idp" then Some(Idp) else None
  }

  /** Deletion has its own operation. */
  function StatusNamed(w: string): Option<Status> {
    if w == "active" then Some(Active) else if w == "suspended" then Some(Suspended) else None
  }

  predicate WellFormed(p: Patch) {
    && (p.role.Some? ==> RoleNamed(p.role.value).Some?)
    && (p.source.Some? ==> SourceNamed(p.source.value).Some?)
    && (p.status.Some? ==> StatusNamed(p.status.value).Some?)
  }

  predicate Present(s: Store, id: UserId) { id in s.users && s.users[id].status != Deleted }

  /** The row `updateUser` wants to write; a local account keeps no grants and no denials. */
  function Patched(s: Store, id: UserId, p: Patch): User
    requires Present(s, id) && WellFormed(p)
  {
    var u := s.users[id];
    var source := if p.source.Some? then SourceNamed(p.source.value).value else u.source;
    var role := if p.role.Some? then RoleNamed(p.role.value).value else u.authority.role;
    var status := if p.status.Some? then StatusNamed(p.status.value).value else u.status;
    var lists := source == Idp || ByProvider(s, id);
    User(Authority(role, if lists then AuthorityOf(u).grant else [], if lists then AuthorityOf(u).deny else []),
         status, source, u.totp)
  }

  function Update(s: Store, otp: Option<Issuer>, id: UserId, p: Patch): Result<Store, Refusal> {
    if !WellFormed(p) then Err(Malformed)
    else if !Present(s, id) then Err(NoUser)
    else
      var u, n := s.users[id], Patched(s, id, p);
      var was, now := Administers(AuthorityOf(u)), Administers(n.authority);
      if (n.source == Idp || ByProvider(s, id)) && p.role.Some? then Err(RoleFromIdp)
      else if n.source == Idp && !Linked(s, id) then Err(NoIdentity)
      else if was && u.status == Active && (!now || n.status != Active) && NoOtherAdmin(s, id) then Err(LastAdmin)
      else if now && !was && !HasFactor(s, otp, id) then Err(NeedsFactor)
      else Ok(s.(users := s.users[id := n]))
  }

  /** Whose lists stay: an account that a provider governs. */
  predicate KeepsLists(s: Store, id: UserId, source: Source) { source == Idp || ByProvider(s, id) }

  /**
   * What an accepted patch leaves, in its own words: each field it names has the value named, each
   * field it does not name is as before, a locally governed account keeps no grants and no denials,
   * and no other account, link or provider changes.
   */
  lemma UpdateLeaves(s: Store, otp: Option<Issuer>, id: UserId, p: Patch)
    requires Update(s, otp, id, p).Ok?
    ensures var n := Update(s, otp, id, p).value; n == s.(users := n.users) && n.users.Keys == s.users.Keys
    ensures var n := Update(s, otp, id, p).value; forall x | x in s.users && x != id :: n.users[x] == s.users[x]
    ensures id in s.users && id in Update(s, otp, id, p).value.users
    ensures var u, v := s.users[id], Update(s, otp, id, p).value.users[id];
      && v.authority.role == (match p.role case None => u.authority.role case Some(w) =>
           if w == "auditor" then Auditor else if w == "operator" then Operator else Admin)
      && (p.role.Some? && v.authority.role == Admin ==> p.role.value == "admin")
      && v.status == (match p.status case None => u.status case Some(w) => if w == "suspended" then Suspended else Active)
      && v.source == (match p.source case None => u.source case Some(w) => if w == "local" then Local else Idp)
      && v.totp == u.totp
      && (if KeepsLists(s, id, v.source)
          then forall x :: (x in v.authority.grant <==> x in u.authority.grant) && (x in v.authority.deny <==> x in u.authority.deny)
          else v.authority.grant == [] && v.authority.deny == [])
  {
    var u, v := s.users[id], Update(s, otp, id, p).value.users[id];
    if KeepsLists(s, id, v.source) {
      forall x ensures (x in v.authority.grant <==> x in u.authority.grant) && (x in v.authority.deny <==> x in u.authority.deny) {
        NormIs(u.authority.grant, x);
        NormIs(u.authority.deny, x);
      }
    }
  }

  function Delete(s: Store, id: UserId): Result<Store, Refusal> {
    if !Present(s, id) then Err(NoUser)
    else if ActiveAdmin(s, id) && NoOtherAdmin(s, id) then Err(LastAdmin)
    else Ok(s.(users := s.users[id := s.users[id].(status := Deleted, totp := false)]))
  }

  /** `#applyIdp`: a mapped authority reaches an account, at a login or by a role change. */
  function FromIdp(s: Store, otp: Option<Issuer>, id: UserId, next: Authority): Result<Store, Refusal> {
    if id !in s.users then Err(NoUser)
    else
      var u := s.users[id];
      var was, now := Administers(AuthorityOf(u)), Administers(next);
      if AuthorityOf(u) == next then Ok(s)
      else if now && !was && !HasFactor(s, otp, id) then Err(NeedsFactor)
      else if was && !now && u.status == Active && NoOtherAdmin(s, id) then Err(LastAdmin)
      else Ok(s.(users := s.users[id := u.(authority := next)]))
  }

  predicate Settles(s: Store, who: Option<UserId>, id: UserId) {
    && id in s.users && (who.Some? ==> who.value == id) && !IdpRules(s, id)
    && (s.users[id].authority.grant != [] || s.users[id].authority.deny != [])
  }

  /** `#settleLocal`: local accounts lose what an identity provider granted or denied. */
  function Settle(s: Store, who: Option<UserId>): Store {
    s.(users := map id | id in s.users ::
      if Settles(s, who, id) then s.users[id].(authority := Authority(s.users[id].authority.role, [], []))
      else s.users[id])
  }

  function Unlinked(s: Store, l: Link): Store { s.(links := s.links - {l}) }

  /** `unlinkIdentity`, after the password was checked. */
  function Unlink(s: Store, otp: Option<Issuer>, l: Link): Result<Store, Refusal> {
    var n := Unlinked(s, l);
    if l !in s.links then Err(NoIdentity)
    else if l.user in n.users && AdminSql(n.users[l.user]) && !HasFactor(n, otp, l.user) then Err(NeedsFactor)
    else Ok(Settle(n, Some(l.user)))
  }

  function WithProvider(s: Store, i: Issuer, on: bool): Store {
    s.(providers := s.providers[i := Provider(on, i in s.providers && s.providers[i].mapped)])
  }

  /** `setProviderAuthority`. */
  function SetProvider(s: Store, i: Issuer, on: bool): Result<Store, Refusal> {
    if on && !(i in s.providers && s.providers[i].mapped) then Err(RolesNotConfigured)
    else Ok(if on then WithProvider(s, i, on) else Settle(WithProvider(s, i, on), None))
  }

  datatype Call =
    | UpdateUser(id: UserId, patch: Patch)
    | DeleteUser(id: UserId)
    | ApplyIdp(id: UserId, next: Authority)
    | UnlinkIdentity(link: Link)
    | ProviderAuthority(issuer: Issuer, on: bool)

  function Answer(s: Store, otp: Option<Issuer>, c: Call): Result<Store, Refusal> {
    match c
    case UpdateUser(id, p) => Update(s, otp, id, p)
    case DeleteUser(id) => Delete(s, id)
    case ApplyIdp(id, next) => FromIdp(s, otp, id, next)
    case UnlinkIdentity(l) => Unlink(s, otp, l)
    case ProviderAuthority(i, on) => SetProvider(s, i, on)
  }

  function WhyNot(r: Result<Store, Refusal>): Option<Refusal> { if r.Ok? then None else Some(r.error) }

  /** A refused call changes nothing. */
  function After(s: Store, otp: Option<Issuer>, c: Call): Store {
    var r := Answer(s, otp, c);
    if r.Ok? then r.value else s
  }

  // ------------------------------------------------------------------ what accepted calls leave

  /** Everybody but this account is as before, and so are links and providers. */
  predicate OnlyAccount(s: Store, n: Store, id: UserId) {
    && id in s.users && n.links == s.links && n.providers == s.providers && n.users.Keys == s.users.Keys
    && forall x | x in s.users && x != id :: n.users[x] == s.users[x]
  }

  /** A deleted account is out of reach of every later update and deletion, and keeps no second factor. */
  lemma DeleteLeaves(s: Store, otp: Option<Issuer>, id: UserId, p: Patch)
    requires Delete(s, id).Ok?
    ensures var n := Delete(s, id).value;
      && OnlyAccount(s, n, id) && !Present(n, id) && !ActiveAdmin(n, id) && !n.users[id].totp
      && Delete(n, id) == Err(NoUser) && (WellFormed(p) ==> Update(n, otp, id, p) == Err(NoUser))
  {
  }

  /** A mapped authority leaves the account with exactly the scopes it maps to; the same again changes nothing. */
  lemma IdpLeaves(s: Store, otp: Option<Issuer>, id: UserId, next: Authority)
    requires FromIdp(s, otp, id, next).Ok?
    ensures var n := FromIdp(s, otp, id, next).value;
      && OnlyAccount(s, n, id)
      && n.users[id].status == s.users[id].status && n.users[id].source == s.users[id].source && n.users[id].totp == s.users[id].totp
      && EffectiveScopes(AuthorityOf(n.users[id])) == EffectiveScopes(next) && n.users[id].authority.role == next.role
      && FromIdp(n, otp, id, next) == Ok(n)
  {
    var n := FromIdp(s, otp, id, next).value;
    RowScopesAreExact(n.users[id]);
    RowScopesAreExact(s.users[id]);
    if AuthorityOf(s.users[id]) != next { assert n.users[id := n.users[id].(authority := next)] == n.users; }
  }

  /** Ending one link ends no other, and touches nobody but its account. */
  lemma UnlinkLeaves(s: Store, otp: Option<Issuer>, l: Link)
    requires Unlink(s, otp, l).Ok?
    ensures var n := Unlink(s, otp, l).value;
      && (forall k :: k in n.links <==> k in s.links && k != l) && n.providers == s.providers && n.users.Keys == s.users.Keys
      && (forall x | x in s.users && x != l.user :: n.users[x] == s.users[x])
      && (l.user in s.users && !IdpRules(n, l.user) ==> n.users[l.user].authority == Authority(s.users[l.user].authority.role, [], []))
      && (l.user in s.users && IdpRules(n, l.user) ==> n.users[l.user] == s.users[l.user])
      && (l.user in s.users && AdminSql(s.users[l.user]) ==> HasFactor(n, otp, l.user))
  {
    var n := Unlink(s, otp, l).value;
    forall x ensures IdpRules(n, x) == IdpRules(Unlinked(s, l), x) { SameRules(Unlinked(s, l), n, x); }
  }

  /** Who governs an account is read from its source, the links and the providers alone. */
  lemma SameRules(s: Store, n: Store, x: UserId)
    requires n.links == s.links && n.providers == s.providers && n.users.Keys == s.users.Keys
    requires x in s.users ==> n.users[x].source == s.users[x].source
    ensures IdpRules(n, x) == IdpRules(s, x)
  {
    forall l: Link ensures Governs(n, l) == Governs(s, l) { }
  }

  /** Turning a provider's rule on or off sets just that; whoever is governed by nobody afterwards keeps only the role. */
  lemma ProviderLeaves(s: Store, i: Issuer, on: bool)
    requires SetProvider(s, i, on).Ok?
    ensures var n := SetProvider(s, i, on).value;
      && n.links == s.links && n.users.Keys == s.users.Keys
      && i in n.providers && n.providers[i].rules == on && (on ==> n.providers[i].mapped)
      && (forall k | k in s.providers && k != i :: k in n.providers && n.providers[k] == s.providers[k])
      && (forall x | x in s.users :: n.users[x].authority.role == s.users[x].authority.role && n.users[x].status == s.users[x].status)
      && (forall x | x in s.users && (on || IdpRules(n, x)) :: n.users[x] == s.users[x])
      && (forall x | x in s.users && !on && !IdpRules(n, x) :: n.users[x].authority.grant == [] && n.users[x].authority.deny == [])
  {
    var n := SetProvider(s, i, on).value;
    forall x ensures IdpRules(n, x) == IdpRules(WithProvider(s, i, on), x) { SameRules(WithProvider(s, i, on), n, x); }
  }

  // ------------------------------------------------------------------ an admin stays

  predicate IsGuarded(c: Call) { c.UpdateUser? || c.DeleteUser? || c.ApplyIdp? }

  /** Writing one row keeps an admin when another is left, or when the row itself stays one. */
  lemma RowKeepsAnAdmin(s: Store, id: UserId, n: User)
    requires HasActiveAdmin(s)
    requires ActiveAdmin(s, id) ==> (n.status == Active && AdminSql(n)) || !NoOtherAdmin(s, id)
    ensures HasActiveAdmin(s.(users := s.users[id := n]))
  {
    var t := s.(users := s.users[id := n]);
    if ActiveAdmin(s, id) && n.status == Active && AdminSql(n) {
      assert ActiveAdmin(t, id);
    } else {
      var x :| x in s.users && x != id && ActiveAdmin(s, x);
      assert ActiveAdmin(t, x);
    }
  }

  lemma GuardedKeepsAnAdmin(s: Store, otp: Option<Issuer>, c: Call)
    requires HasActiveAdmin(s) && IsGuarded(c)
    ensures HasActiveAdmin(After(s, otp, c))
  {
    if Answer(s, otp, c).Ok? {
      var id := c.id;
      AdminSqlAgrees(s.users[id]);
      var n := After(s, otp, c).users[id];
      AdministersIs(n.authority);
      if After(s, otp, c) != s {
        RowKeepsAnAdmin(s, id, n);
      }
    }
  }

  /** The accounts that are admins once those of `who` that turned local lost their lists. */
  predicate StaysAdmin(s: Store, who: Option<UserId>, id: UserId) {
    && id in s.users && s.users[id].status == Active
    && if (who.Some? ==> who.value == id) && !IdpRules(s, id) then s.users[id].authority.role == Admin
       else AdminSql(s.users[id])
  }

  /** `#settleLocal` has no guard: exactly these accounts are admins afterwards. */
  lemma SettledAdmins(s: Store, who: Option<UserId>, id: UserId)
    ensures ActiveAdmin(Settle(s, who), id) <==> StaysAdmin(s, who, id)
  {
  }

  /**
   * What a caller can look up before the call: a guarded call needs nothing, taking the last word
   * from a provider needs an account that is an admin by role, or still governed by a provider.
   */
  predicate LeavesAnAdmin(s: Store, otp: Option<Issuer>, c: Call) {
    match c
    case UnlinkIdentity(l) =>
      Unlink(s, otp, l).Ok? ==> exists id | id in s.users :: StaysAdmin(Unlinked(s, l), Some(l.user), id)
    case ProviderAuthority(i, on) =>
      !on ==> exists id | id in s.users :: StaysAdmin(WithProvider(s, i, on), None, id)
    case _ => true
  }

  lemma SettleKeepsExactly(s: Store, who: Option<UserId>)
    ensures HasActiveAdmin(Settle(s, who)) <==> exists id | id in s.users :: StaysAdmin(s, who, id)
  {
    var t := Settle(s, who);
    forall id ensures ActiveAdmin(t, id) <==> StaysAdmin(s, who, id) { SettledAdmins(s, who, id); }
    if HasActiveAdmin(t) {
      var id :| id in t.users && ActiveAdmin(t, id);
      assert id in s.users && StaysAdmin(s, who, id);
    }
    if id :| id in s.users && StaysAdmin(s, who, id) {
      assert id in t.users && ActiveAdmin(t, id);
    }
  }

  lemma OneCallKeepsExactly(s: Store, otp: Option<Issuer>, c: Call)
    requires HasActiveAdmin(s)
    ensures HasActiveAdmin(After(s, otp, c)) <==> LeavesAnAdmin(s, otp, c)
  {
    match c
    case UnlinkIdentity(l) =>
      SettleKeepsExactly(Unlinked(s, l), Some(l.user));
    case ProviderAuthority(i, on) =>
      SettleKeepsExactly(WithProvider(s, i, on), None);
      var x :| x in s.users && ActiveAdmin(s, x);
      if on && Answer(s, otp, c).Ok? { assert ActiveAdmin(After(s, otp, c), x); }
    case _ =>
      GuardedKeepsAnAdmin(s, otp, c);
  }

  function RunOf(s: Store, otp: Option<Issuer>, cs: seq<Call>): Store
    decreases |cs|
  {
    if cs == [] then s else RunOf(After(s, otp, cs[0]), otp, cs[1..])
  }

  predicate NeverWithoutAdmin(s: Store, otp: Option<Issuer>, cs: seq<Call>)
    decreases |cs|
  {
    HasActiveAdmin(s) && (cs != [] ==> NeverWithoutAdmin(After(s, otp, cs[0]), otp, cs[1..]))
  }

  predicate Careful(s: Store, otp: Option<Issuer>, cs: seq<Call>)
    decreases |cs|
  {
    cs != [] ==> LeavesAnAdmin(s, otp, cs[0]) && Careful(After(s, otp, cs[0]), otp, cs[1..])
  }

  /** A whole run has an admin at every moment exactly when each unguarded call left one. */
  lemma {:induction false} RunsKeepAnAdminExactly(s: Store, otp: Option<Issuer>, cs: seq<Call>)
    requires HasActiveAdmin(s)
    ensures NeverWithoutAdmin(s, otp, cs) <==> Careful(s, otp, cs)
    decreases |cs|
  {
    if cs != [] {
      OneCallKeepsExactly(s, otp, cs[0]);
      if LeavesAnAdmin(s, otp, cs[0]) { RunsKeepAnAdminExactly(After(s, otp, cs[0]), otp, cs[1..]); }
    }
  }

  /** Any run of role changes, deletions and provider decisions keeps an active effective admin. */
  lemma {:induction false} GuardedRunsKeepAnAdmin(s: Store, otp: Option<Issuer>, cs: seq<Call>)
    requires HasActiveAdmin(s)
    requires forall c | c in cs :: IsGuarded(c)
    ensures HasActiveAdmin(RunOf(s, otp, cs))
    decreases |cs|
  {
    if cs != [] {
      GuardedKeepsAnAdmin(s, otp, cs[0]);
      GuardedRunsKeepAnAdmin(After(s, otp, cs[0]), otp, cs[1..]);
    }
  }

  /** The only admin is one by a provider's grant: ending that provider's rule leaves nobody. */
  lemma EndingARuleCanLeaveNobody()
    ensures exists s, otp, c :: HasActiveAdmin(s) && Answer(s, otp, c).Ok? && !HasActiveAdmin(After(s, otp, c))
  {
    var u := User(Authority(Operator, [Administer], []), Active, Local, true);
    var l := Link(7, 1, 0);
    var s := Store(map[0 := u], {l}, map[7 := Provider(true, true)]);
    var otp: Option<Issuer> := None;
    var c := ProviderAuthority(7, false);
    assert ActiveAdmin(s, 0);
    assert !ByProvider(WithProvider(s, 7, false), 0);
    OneCallKeepsExactly(s, otp, c);
    assert !LeavesAnAdmin(s, otp, c);
  }

  // ------------------------------------------------------------------ the guard is not too strict

  /** The row a guarded call means to write. */
  function Wanted(s: Store, c: Call): User
    requires IsGuarded(c) && c.id in s.users
    requires c.UpdateUser? ==> Present(s, c.id) && WellFormed(c.patch)
  {
    var u := s.users[c.id];
    match c
    case UpdateUser(id, p) => Patched(s, id, p)
    case DeleteUser(id) => u.(status := Deleted, totp := false)
    case _ => u.(authority := c.next)
  }

  /** None of the other refusals a caller can foresee. */
  predicate Permitted(s: Store, c: Call) {
    && IsGuarded(c) && c.id in s.users
    && (!c.ApplyIdp? ==> Present(s, c.id))
    && (c.UpdateUser? ==>
          && WellFormed(c.patch)
          && (c.patch.role.Some? ==> Patched(s, c.id, c.patch).source != Idp && !ByProvider(s, c.id))
          && (Patched(s, c.id, c.patch).source == Idp ==> Linked(s, c.id)))
  }

  /** Is an account an admin after its row was rewritten? */
  lemma RowLeavesNobody(s: Store, id: UserId, n: User)
    requires HasActiveAdmin(s)
    ensures !HasActiveAdmin(s.(users := s.users[id := n])) <==>
            ActiveAdmin(s, id) && NoOtherAdmin(s, id) && !(n.status == Active && AdminSql(n))
  {
    var t := s.(users := s.users[id := n]);
    var x :| x in s.users && ActiveAdmin(s, x);
    if x != id { assert ActiveAdmin(t, x); }
    if n.status == Active && AdminSql(n) { assert ActiveAdmin(t, id); }
    if !NoOtherAdmin(s, id) {
      var y :| y in s.users && y != id && ActiveAdmin(s, y);
      assert ActiveAdmin(t, y);
    } else if HasActiveAdmin(t) {
      var y :| y in t.users && ActiveAdmin(t, y);
      assert y == id || ActiveAdmin(s, y);
    }
  }

  /** A permitted call is turned down as the last admin's exactly when it would leave nobody. */
  lemma LastAdminIsRefusedExactly(s: Store, otp: Option<Issuer>, c: Call)
    requires HasActiveAdmin(s) && Permitted(s, c)
    ensures Answer(s, otp, c) == Err(LastAdmin) <==> !HasActiveAdmin(s.(users := s.users[c.id := Wanted(s, c)]))
  {
    var n := Wanted(s, c);
    AdminSqlAgrees(s.users[c.id]);
    AdministersIs(n.authority);
    RowLeavesNobody(s, c.id, n);
  }

  // ------------------------------------------------------------------ two more promises

  /** A guarded call makes nobody an admin who has no second factor. */
  lemma NewAdminsHaveAFactor(s: Store, otp: Option<Issuer>, c: Call, id: UserId)
    requires IsGuarded(c) && id in After(s, otp, c).users
    requires AdminSql(After(s, otp, c).users[id])
    requires !(id in s.users && AdminSql(s.users[id]))
    ensures HasFactor(s, otp, id)
  {
    if Answer(s, otp, c).Ok? {
      if id in s.users { AdminSqlAgrees(s.users[id]); }
      AdministersIs(After(s, otp, c).users[id].authority);
    }
  }

  /** Under local rule the role alone is the authority. */
  predicate RoleAlone(s: Store) {
    forall id | id in s.users :: !IdpRules(s, id) ==> s.users[id].authority.grant == s.users[id].authority.deny == []
  }

  /** `#applyIdp` is for accounts a provider governs; its callers look before they call. */
  predicate Addressed(s: Store, c: Call) { c.ApplyIdp? ==> IdpRules(s, c.id) }

  lemma CallKeepsRoleAlone(s: Store, otp: Option<Issuer>, c: Call)
    requires RoleAlone(s) && Addressed(s, c)
    ensures RoleAlone(After(s, otp, c))
  {
    hide Administers, EffectiveScopes, NoOtherAdmin, HasFactor, AdminSql, RoleNamed, StatusNamed;
    var t := After(s, otp, c);
    forall id | id in t.users && !IdpRules(t, id)
      ensures t.users[id].authority.grant == t.users[id].authority.deny == []
    {
      match c
      case UnlinkIdentity(l) =>
        if t != s && id != l.user {
          forall k | k in s.links && k.user == id ensures !Governs(s, k) { assert k in t.links && Governs(t, k) == Governs(s, k); }
        }
      case ProviderAuthority(i, on) =>
        if t != s && on {
          forall k | k in s.links && k.user == id ensures !Governs(s, k) { assert !Governs(t, k); }
        }
      case _ =>
        forall k | k in s.links ensures Governs(t, k) == Governs(s, k) {}
        assert ByProvider(t, id) == ByProvider(s, id);
    }
  }

  predicate AllAddressed(s: Store, otp: Option<Issuer>, cs: seq<Call>)
    decreases |cs|
  {
    cs != [] ==> Addressed(s, cs[0]) && AllAddressed(After(s, otp, cs[0]), otp, cs[1..])
  }

  /** After any run, what a locally governed account may do is what its role says. */
  lemma {:induction false} LocalScopesAreTheRoles(s: Store, otp: Option<Issuer>, cs: seq<Call>, id: UserId)
    requires RoleAlone(s) && AllAddressed(s, otp, cs)
    requires id in RunOf(s, otp, cs).users && !IdpRules(RunOf(s, otp, cs), id)
    ensures EffectiveScopes(AuthorityOf(RunOf(s, otp, cs).users[id])) ==
            ScopesOfRole(RunOf(s, otp, cs).users[id].authority.role)
    decreases |cs|
  {
    if cs == [] {
      var u := s.users[id];
      RowScopesAreExact(u);
      PlainRole(u.authority.role);
      assert ScopesOfRole(u.authority.role) + [] == ScopesOfRole(u.authority.role);
    } else {
      CallKeepsRoleAlone(s, otp, cs[0]);
      LocalScopesAreTheRoles(After(s, otp, cs[0]), otp, cs[1..], id);
    }
  }

  lemma {:induction false} WithoutNothing(xs: seq<Scope>)
    ensures Without(xs, []) == xs
  {
    if xs != [] { WithoutNothing(xs[1..]); }
  }

  lemma OneMore(x: Scope, order: seq<Scope>, xs: seq<Scope>)
    ensures Among([x] + order, xs) == (if x in xs then [x] else []) + Among(order, xs)
  {
    assert ([x] + order)[1..] == order;
  }

  /** The scopes of a role are listed in the fixed order already. */
  lemma PlainRole(r: Role)
    ensures NormScopes(Without(ScopesOfRole(r), [])) == ScopesOfRole(r)
  {
    var xs := ScopesOfRole(r);
    WithoutNothing(xs);
    hide Without, Among;
    OneMore(Administer, [], xs);
    OneMore(Apply, [Administer], xs);
    OneMore(Write, [Apply] + [Administer], xs);
    OneMore(Read, [Write] + ([Apply] + [Administer]), xs);
    NothingAmong(xs);
    assert ALL_SCOPES == [Read] + ([Write] + ([Apply] + [Administer])) && [Administer] + [] == [Administer];
    match r
    case Auditor => assert xs == [Read];
    case Operator => assert xs == [Read, Write];
    case Admin => assert xs == [Read, Write, Apply, Administer];
  }

  lemma NothingAmong(xs: seq<Scope>)
    ensures Among([], xs) == []
  {
  }

  // ------------------------------------------------------------------ the service

  /** The account service; every method is one transaction over its rows. */
  class Accounts {
    const otp: Option<Issuer>
    var users: map<UserId, User>
    var links: set<Link>
    var providers: map<Issuer, Provider>

    constructor (s: Store, otp: Option<Issuer>)
      ensures Now() == s && this.otp == otp
    {
      this.otp := otp;
      users, links, providers := s.users, s.links, s.providers;
    }

    function Now(): Store
      reads this
    {
      Store(users, links, providers)
    }

    /** How many other active admins there are. */
    method CountOthers(id: UserId) returns (n: nat)
      ensures n == 0 <==> NoOtherAdmin(Now(), id)
    {
      var left := users.Keys;
      n := 0;
      while left != {}
        invariant left <= users.Keys
        invariant n == 0 <==> forall x | x in users.Keys - left :: x != id ==> !ActiveAdmin(Now(), x)
        decreases |left|
      {
        var x :| x in left;
        left := left - {x};
        assert users.Keys - left == users.Keys - (left + {x}) + {x};
        if users[x].status == Active && AdminSql(users[x]) && x != id { n := n + 1; }
      }
    }

    method UpdateUser(id: UserId, p: Patch) returns (refusal: Option<Refusal>)
      modifies this`users
      ensures Now() == After(old(Now()), otp, Call.UpdateUser(id, p))
      ensures refusal == WhyNot(Update(old(Now()), otp, id, p))
    {
      hide AuthorityOf, Administers, ByProvider, HasFactor, Linked, NoOtherAdmin, EffectiveScopes, RoleNamed,
           SourceNamed, StatusNamed;
      if p.role.Some? && RoleNamed(p.role.value).None? { return Some(Malformed); }
      if p.source.Some? && SourceNamed(p.source.value).None? { return Some(Malformed); }
      if p.status.Some? && StatusNamed(p.status.value).None? { return Some(Malformed); }
      if id !in users || users[id].status == Deleted { return Some(NoUser); }
      ghost var s := Now();
      var u := users[id];
      var cur := AuthorityOf(u);
      var source := u.source;
      if p.source.Some? { source := SourceNamed(p.source.value).value; }
      var idpRules := source == Idp || ByProvider(Now(), id);
      if idpRules && p.role.Some? { return Some(RoleFromIdp); }
      if source == Idp && !Linked(Now(), id) { return Some(NoIdentity); }
      var role, status := u.authority.role, u.status;
      if p.role.Some? { role := RoleNamed(p.role.value).value; }
      if p.status.Some? { status := StatusNamed(p.status.value).value; }
      var next := Authority(role, [], []);
      if idpRules { next := Authority(role, cur.grant, cur.deny); }
      assert Patched(s, id, p) == User(next, status, source, u.totp);
      hide Patched;
      var wasAdmin, isAdmin := Administers(cur), Administers(next);
      if wasAdmin && u.status == Active && (!isAdmin || status != Active) {
        var others := CountOthers(id);
        if others == 0 { return Some(LastAdmin); }
      }
      if isAdmin && !wasAdmin && !HasFactor(Now(), otp, id) { return Some(NeedsFactor); }
      users := users[id := User(next, status, source, u.totp)];
      return None;
    }

    method DeleteUser(id: UserId) returns (refusal: Option<Refusal>)
      modifies this`users
      ensures Now() == After(old(Now()), otp, Call.DeleteUser(id))
      ensures refusal == WhyNot(Delete(old(Now()), id))
    {
      if id !in users || users[id].status == Deleted { return Some(NoUser); }
      if AdminSql(users[id]) && users[id].status == Active {
        var others := CountOthers(id);
        if others == 0 { return Some(LastAdmin); }
      }
      users := users[id := users[id].(status := Deleted)];
      users := users[id := users[id].(totp := false)];
      assert users == old(users)[id := old(users)[id].(status := Deleted, totp := false)];
      return None;
    }

    method ApplyIdp(id: UserId, next: Authority) returns (refusal: Option<Refusal>)
      modifies this`users
      ensures Now() == After(old(Now()), otp, Call.ApplyIdp(id, next))
      ensures refusal == WhyNot(FromIdp(old(Now()), otp, id, next))
    {
      if id !in users { return Some(NoUser); }
      var u := users[id];
      var cur := AuthorityOf(u);
      if cur == next { return None; }
      var wasAdmin, isAdmin := Administers(cur), Administers(next);
      if isAdmin && !wasAdmin && !HasFactor(Now(), otp, id) { return Some(NeedsFactor); }
      if wasAdmin && !isAdmin && u.status == Active {
        var others := CountOthers(id);
        if others == 0 { return Some(LastAdmin); }
      }
      users := users[id := u.(authority := next)];
      return None;
    }

    method SettleLocal(who: Option<UserId>)
      modifies this`users
      ensures Now() == Settle(old(Now()), who)
    {
      users := map id | id in users ::
        if (who.Some? ==> who.value == id) && (users[id].authority.grant != [] || users[id].authority.deny != [])
           && !IdpRules(Now(), id)
        then users[id].(authority := Authority(users[id].authority.role, [], []))
        else users[id];
    }

    method UnlinkIdentity(l: Link) returns (refusal: Option<Refusal>)
      modifies this`users, this`links
      ensures Now() == After(old(Now()), otp, Call.UnlinkIdentity(l))
      ensures refusal == WhyNot(Unlink(old(Now()), otp, l))
    {
      if l !in links { return Some(NoIdentity); }
      links := links - {l};
      if l.user in users && AdminSql(users[l.user]) && !HasFactor(Now(), otp, l.user) {
        links := links + {l};
        assert links == old(links);
        return Some(NeedsFactor);
      }
      SettleLocal(Some(l.user));
      return None;
    }

    method SetProviderAuthority(i: Issuer, on: bool) returns (refusal: Option<Refusal>)
      modifies this`users, this`providers
      ensures Now() == After(old(Now()), otp, Call.ProviderAuthority(i, on))
      ensures refusal == WhyNot(SetProvider(old(Now()), i, on))
    {
      var mapped := i in providers && providers[i].mapped;
      if on && !mapped { return Some(RolesNotConfigured); }
      providers := providers[i := Provider(on, mapped)];
      if !on { SettleLocal(None); }
      return None;
    }
  }
}
