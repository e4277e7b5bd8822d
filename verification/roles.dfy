/** The role statements a catalogue entry renders to, and what they do to a server. */
module Roles {
  import opened Text
  import opened Wrappers


  // ----- the server

  datatype Role = Role(grants: set<string>, memberOf: set<string>, profile: Option<string>)
  datatype Quota = Quota(intervals: map<string, map<string, int>>, roles: set<string>)
  datatype Server = Server(
    roles: map<string, Role>, profiles: map<string, map<string, int>>, quotas: map<string, Quota>)

  datatype Statement =
    | CreateRole(role: string)
    | CreateProfile(profile: string)
    | AlterProfile(profile: string, settings: map<string, int>)
    | CreateQuota(quota: string, role: string)
    | AlterQuota(quota: string, interval: string, maxima: map<string, int>, role: string)
    | GrantReplacing(grants: seq<string>, role: string)
    | RevokeAll(role: string)
    | AttachProfile(role: string, profile: string)

  // Whether an ALTER leaves the settings and limits it does not name: what is proved holds either way.
  datatype Dialect = Dialect(keepsUnnamed: bool)

  function Altered(d: Dialect, was: map<string, int>, named: map<string, int>): map<string, int> {
    if d.keepsUnnamed then was + named else named
  }

  function ToSet(xs: seq<string>): set<string> {
    set x | x in xs
  }

  // The state one statement leaves, or None when the server refuses it: it names an object that is not there,
  // or limits a quota to nothing at all.
  function Exec(d: Dialect, s: Server, st: Statement): Option<Server> {
    match st
    case CreateRole(r) =>
      Some(if r in s.roles then s else s.(roles := s.roles[r := Role({}, {}, None)]))
    case CreateProfile(p) =>
      Some(if p in s.profiles then s else s.(profiles := s.profiles[p := map[]]))
    case AlterProfile(p, settings) =>
      if p !in s.profiles then None
      else Some(s.(profiles := s.profiles[p := Altered(d, s.profiles[p], settings)]))
    case CreateQuota(q, r) =>
      if r !in s.roles then None
      else Some(if q in s.quotas then s else s.(quotas := s.quotas[q := Quota(map[], {r})]))
    case AlterQuota(q, interval, maxima, r) =>
      if q !in s.quotas || r !in s.roles || maxima == map[] then None
      else
        var intervals := s.quotas[q].intervals;
        var limits := if interval in intervals then intervals[interval] else map[];
        Some(s.(quotas := s.quotas[q := Quota(intervals[interval := Altered(d, limits, maxima)], {r})]))
    case GrantReplacing(grants, r) =>
      if r !in s.roles then None else Some(s.(roles := s.roles[r := s.roles[r].(grants := ToSet(grants))]))
    case RevokeAll(r) =>
      if r !in s.roles then None else Some(s.(roles := s.roles[r := s.roles[r].(grants := {})]))
    case AttachProfile(r, p) =>
      if r !in s.roles || p !in s.profiles then None
      else Some(s.(roles := s.roles[r := s.roles[r].(profile := Some(p))]))
  }

  function Run(d: Dialect, s: Server, sts: seq<Statement>): Option<Server>
    decreases |sts|
  {
    if sts == [] then Some(s)
    else match Exec(d, s, sts[0])
      case None => None
      case Some(next) => Run(d, next, sts[1..])
  }

  // ----- the renderer

  const DATABASE_PLACEHOLDER := "{db}"

  datatype Naming = Naming(role: string -> string, profile: string -> string, quota: string -> string)
  datatype QuotaDecl = QuotaDecl(interval: Option<string>, limits: map<string, int>)
  // The interval a quota is for, an hour where none is declared.
  function IntervalOf(q: QuotaDecl): string {
    if q.interval.Some? then q.interval.value else "1 hour"
  }

  datatype Entry = Entry(
    name: string, settings: map<string, int>, quota: Option<QuotaDecl>, grants: seq<string>, systemIntrospection: bool)
  datatype Catalogue = Catalogue(naming: Naming, systemIntrospectionTables: seq<string>)

  function Mapped(f: string -> string, xs: seq<string>): (r: seq<string>)
    ensures |r| == |xs| && forall i :: 0 <= i < |xs| ==> r[i] == f(xs[i])
  {
    if xs == [] then [] else [f(xs[0])] + Mapped(f, xs[1..])
  }

  // The privileges the entry declares, on one database.
  function DeclaredGrants(c: Catalogue, e: Entry, database: string): seq<string> {
    var system := if e.systemIntrospection then Mapped(t => "SELECT ON system." + t, c.systemIntrospectionTables)
      else [];
    Mapped(g => Replace(g, DATABASE_PLACEHOLDER, database), e.grants + system)
  }

  function ReplaceGrants(grants: seq<string>, role: string): Statement {
    if grants == [] then RevokeAll(role) else GrantReplacing(grants, role)
  }

  method RenderRoleEntry(c: Catalogue, e: Entry, database: string) returns (name: string, statements: seq<Statement>)
    ensures name == e.name && statements == RoleStatements(c, e, database)
  {
    name := e.name;
    var role := c.naming.role(name);
    var profile := c.naming.profile(name);
    statements := [];
    if e.quota.Some? {
      statements := statements + [CreateRole(role)];
    }
    if e.settings != map[] {
      statements := statements + [CreateProfile(profile)];
      statements := statements + [AlterProfile(profile, e.settings)];
    }
    if e.quota.None? {
      statements := statements + [CreateRole(role)];
    }
    if e.quota.Some? {
      var quota := c.naming.quota(name);
      var interval := IntervalOf(e.quota.value);
      statements := statements + [CreateQuota(quota, role)];
      statements := statements + [AlterQuota(quota, interval, e.quota.value.limits, role)];
    }
    statements := statements + [ReplaceGrants(DeclaredGrants(c, e, database), role)];
    if e.settings != map[] {
      statements := statements + [AttachProfile(role, profile)];
    }
  }

  function QuotaStatements(q: QuotaDecl, quota: string, role: string): seq<Statement> {
    var interval := IntervalOf(q);
    [CreateQuota(quota, role), AlterQuota(quota, interval, q.limits, role)]
  }

  function RoleStatements(c: Catalogue, e: Entry, database: string): seq<Statement> {
    var role, profile := c.naming.role(e.name), c.naming.profile(e.name);
    var settings := if e.settings == map[] then [] else [CreateProfile(profile), AlterProfile(profile, e.settings)];
    var quota := match e.quota
      case None => []
      case Some(q) => QuotaStatements(q, c.naming.quota(e.name), role);
    (if e.quota.Some? then [CreateRole(role)] + settings else settings + [CreateRole(role)])
    + quota + [ReplaceGrants(DeclaredGrants(c, e, database), role)]
    + (if e.settings == map[] then [] else [AttachProfile(role, profile)])
  }

  // ----- what the statements come to

  // The state the whole list leaves, written down without running it.
  function Converged(d: Dialect, c: Catalogue, e: Entry, database: string, s: Server): Server {
    var role, profile, quota := c.naming.role(e.name), c.naming.profile(e.name), c.naming.quota(e.name);
    var was := if role in s.roles then s.roles[role] else Role({}, {}, None);
    var profiles :=
      if e.settings == map[] then s.profiles
      else s.profiles[profile := Altered(d, if profile in s.profiles then s.profiles[profile] else map[], e.settings)];
    var quotas := match e.quota
      case None => s.quotas
      case Some(q) =>
        var interval := IntervalOf(q);
        var intervals := if quota in s.quotas then s.quotas[quota].intervals else map[];
        var limits := if interval in intervals then intervals[interval] else map[];
        s.quotas[quota := Quota(intervals[interval := Altered(d, limits, q.limits)], {role})];
    var attached := if e.settings == map[] then was.profile else Some(profile);
    Server(s.roles[role := Role(ToSet(DeclaredGrants(c, e, database)), was.memberOf, attached)], profiles, quotas)
  }

  lemma {:induction false} RunConcat(d: Dialect, s: Server, a: seq<Statement>, b: seq<Statement>)
    ensures Run(d, s, a + b) == match Run(d, s, a) case None => None case Some(mid) => Run(d, mid, b)
    decreases |a|
  {
    hide Exec;
    if a == [] {
      assert a + b == b;
    } else {
      assert (a + b)[0] == a[0] && (a + b)[1..] == a[1..] + b;
      match Exec(d, s, a[0])
      case None =>
      case Some(next) => RunConcat(d, next, a[1..], b);
    }
  }

  lemma RunOne(d: Dialect, s: Server, st: Statement)
    ensures Run(d, s, [st]) == Exec(d, s, st)
  {
    hide Exec;
    assert [st][1..] == [];
  }

  lemma RunTwo(d: Dialect, s: Server, st: Statement, st': Statement)
    ensures Run(d, s, [st, st']) == match Exec(d, s, st) case None => None case Some(mid) => Exec(d, mid, st')
  {
    hide Exec;
    assert [st, st'] == [st] + [st'];
    RunConcat(d, s, [st], [st']);
    RunOne(d, s, st);
    if Exec(d, s, st).Some? {
      RunOne(d, Exec(d, s, st).value, st');
    }
  }

  lemma RunStage(d: Dialect, s: Server, before: seq<Statement>, mid: Server, stage: seq<Statement>, after: Server)
    requires Run(d, s, before) == Some(mid) && Run(d, mid, stage) == Some(after)
    ensures Run(d, s, before + stage) == Some(after)
  {
    hide Run;
    RunConcat(d, s, before, stage);
  }

  // Does the entry's quota, if it declares one, limit anything?
  predicate HasLimits(e: Entry) {
    e.quota.Some? ==> e.quota.value.limits != map[]
  }

  // From any state, every statement is accepted and the list converges, unless the quota limits nothing.
  lemma RoleConverges(d: Dialect, c: Catalogue, e: Entry, database: string, s: Server)
    ensures Run(d, s, RoleStatements(c, e, database)) == if HasLimits(e) then Some(Converged(d, c, e, database, s))
        else None
  {
    var role, profile, quota := c.naming.role(e.name), c.naming.profile(e.name), c.naming.quota(e.name);
    var end := Converged(d, c, e, database, s);
    var was := if role in s.roles then s.roles[role] else Role({}, {}, None);
    var s2 := Server(s.roles[role := was], end.profiles, s.quotas);
    var s3 := s2.(quotas := end.quotas);
    var s4 := s3.(roles := s.roles[role := was.(grants := ToSet(DeclaredGrants(c, e, database)))]);
    var settings := if e.settings == map[] then [] else [CreateProfile(profile), AlterProfile(profile, e.settings)];
    var first := if e.quota.Some? then [CreateRole(role)] + settings else settings + [CreateRole(role)];
    var quotas := match e.quota
      case None => []
      case Some(q) => QuotaStatements(q, quota, role);
    var grant := ReplaceGrants(DeclaredGrants(c, e, database), role);
    var attach := if e.settings == map[] then [] else [AttachProfile(role, profile)];
    assert RoleStatements(c, e, database) == first + quotas + [grant] + attach;
    assert Run(d, s, first) == Some(s2) by { FirstStage(d, role, profile, e.settings, s); }
    assert Run(d, s2, quotas) == if HasLimits(e) then Some(s3) else None by { QuotaStage(d, e.quota, quota, role, s2); }
    assert Run(d, s3, [grant]) == Some(s4) by {
      GrantsReplaced(d, s3, DeclaredGrants(c, e, database), role);
      PutTwice(s.roles, role, was, was.(grants := ToSet(DeclaredGrants(c, e, database))));
    }
    PutTwice(s.roles, role, s4.roles[role], end.roles[role]);
    assert Run(d, s4, attach) == Some(end) by { AttachStage(d, e.settings, role, profile, s4, end); }
    hide *;
    if HasLimits(e) {
      RunStage(d, s, first, s2, quotas, s3);
      RunStage(d, s, first + quotas, s3, [grant], s4);
      RunStage(d, s, first + quotas + [grant], s4, attach, end);
    } else {
      RunConcat(d, s, first, quotas);
      RunConcat(d, s, first + quotas, [grant]);
      RunConcat(d, s, first + quotas + [grant], attach);
    }
  }

  lemma FirstStage(d: Dialect, role: string, profile: string, kv: map<string, int>, s: Server)
    ensures var settings := if kv == map[] then [] else [CreateProfile(profile), AlterProfile(profile, kv)];
            var was := if role in s.roles then s.roles[role] else Role({}, {}, None);
            var profiles := if kv == map[] then s.profiles
                            else
                              var now := if profile in s.profiles then s.profiles[profile] else map[];
                              s.profiles[profile := Altered(d, now, kv)];
            var end := Server(s.roles[role := was], profiles, s.quotas);
            Run(d, s, [CreateRole(role)] + settings) == Some(end) && Run(d, s, settings + [CreateRole(role)])
              == Some(end)
  {
    var settings := if kv == map[] then [] else [CreateProfile(profile), AlterProfile(profile, kv)];
    var was := if role in s.roles then s.roles[role] else Role({}, {}, None);
    var profiles := if kv == map[] then s.profiles
                    else
                      var now := if profile in s.profiles then s.profiles[profile] else map[];
                      s.profiles[profile := Altered(d, now, kv)];
    var s1, t, end := s.(roles := s.roles[role := was]), s.(profiles := profiles),
      Server(s.roles[role := was], profiles, s.quotas);
    assert Run(d, s, [CreateRole(role)]) == Some(s1) && Run(d, t, [CreateRole(role)]) == Some(end) by {
      RunOne(d, s, CreateRole(role));
      RunOne(d, t, CreateRole(role));
      assert role in s.roles ==> s.roles[role := was] == s.roles;
    }
    assert Run(d, s, settings) == Some(t) && Run(d, s1, settings) == Some(end) by {
      if kv != map[] {
        RunTwo(d, s, settings[0], settings[1]);
        RunTwo(d, s1, settings[0], settings[1]);
        PutTwice(s.profiles, profile, map[], profiles[profile]);
      }
    }
    hide *;
    RunStage(d, s, [CreateRole(role)], s1, settings, end);
    RunStage(d, s, settings, t, [CreateRole(role)], end);
  }

  lemma QuotaStage(d: Dialect, decl: Option<QuotaDecl>, quota: string, role: string, s: Server)
    requires role in s.roles
    ensures decl.None? ==> Run(d, s, []) == Some(s)
    ensures decl.Some? ==>
              var interval := IntervalOf(decl.value);
              var intervals := if quota in s.quotas then s.quotas[quota].intervals else map[];
              var limits := if interval in intervals then intervals[interval] else map[];
              var after := intervals[interval := Altered(d, limits, decl.value.limits)];
              Run(d, s, QuotaStatements(decl.value, quota, role)) ==
              if decl.value.limits == map[] then None else Some(s.(quotas := s.quotas[quota := Quota(after, {role})]))
  {
    if decl.Some? {
      var sts := QuotaStatements(decl.value, quota, role);
      RunTwo(d, s, sts[0], sts[1]);
      if decl.value.limits != map[] {
        var created := Quota(map[], {role});
        var after := Exec(d, Exec(d, s, sts[0]).value, sts[1]).value;
        PutTwice(s.quotas, quota, created, after.quotas[quota]);
      }
    }
  }

  lemma AttachStage(d: Dialect, kv: map<string, int>, role: string, profile: string, s: Server, end: Server)
    requires role in s.roles && (kv != map[] ==> profile in s.profiles)
    requires end.profiles == s.profiles && end.quotas == s.quotas
    requires end.roles == s.roles[role := s.roles[role].(profile := if kv == map[] then s.roles[role].profile
        else Some(profile))]
    ensures Run(d, s, if kv == map[] then [] else [AttachProfile(role, profile)]) == Some(end)
  {
    if kv == map[] {
      assert s.roles[role := s.roles[role]] == s.roles;
    } else {
      RunOne(d, s, AttachProfile(role, profile));
    }
  }

  lemma GrantsReplaced(d: Dialect, s: Server, grants: seq<string>, role: string)
    requires role in s.roles
    ensures var end := Some(s.(roles := s.roles[role := s.roles[role].(grants := ToSet(grants))]));
            Exec(d, s, ReplaceGrants(grants, role)) == end && Run(d, s, [ReplaceGrants(grants, role)]) == end
  {
    assert ToSet([]) == {};
    RunOne(d, s, ReplaceGrants(grants, role));
  }

  lemma SameServer(a: Server, b: Server)
    requires a.roles == b.roles && a.profiles == b.profiles && a.quotas == b.quotas
    ensures a == b
  {
  }

  // Where the statements are accepted: exactly the catalogue's grants, whatever was there before; nobody else's
  // role touched; and the settings and limits the catalogue names at its values.
  lemma RoleHoldsCatalogue(d: Dialect, c: Catalogue, e: Entry, database: string, s: Server)
    ensures Run(d, s, RoleStatements(c, e, database)).Some? <==> HasLimits(e)
    ensures var after := Run(d, s, RoleStatements(c, e, database));
            var role, profile, quota := c.naming.role(e.name), c.naming.profile(e.name), c.naming.quota(e.name);
            after.Some? ==>
            && role in after.value.roles
            && after.value.roles[role].grants == ToSet(DeclaredGrants(c, e, database))
            && after.value.roles - {role} == s.roles - {role}
            && after.value.profiles - {profile} == s.profiles - {profile}
            && after.value.quotas - {quota} == s.quotas - {quota}
            && (role in s.roles ==> after.value.roles[role].memberOf == s.roles[role].memberOf)
            && (e.settings != map[] ==>
                  && after.value.roles[role].profile == Some(profile)
                  && profile in after.value.profiles
                  && forall k :: k in e.settings ==>
                       k in after.value.profiles[profile] && after.value.profiles[profile][k] == e.settings[k])
            && (e.quota.Some? ==>
                  var interval := if e.quota.value.interval == None then "1 hour" else e.quota.value.interval.value;
                  && quota in after.value.quotas && after.value.quotas[quota].roles == {role}
                  && interval in after.value.quotas[quota].intervals
                  && var limits := after.value.quotas[quota].intervals[interval];
                     forall k :: k in e.quota.value.limits ==> k in limits && limits[k] == e.quota.value.limits[k])
  {
    RoleConverges(d, c, e, database, s);
    hide Run, RoleStatements, DeclaredGrants;
    var end := Converged(d, c, e, database, s);
    SameOthers(s.roles, c.naming.role(e.name), end.roles[c.naming.role(e.name)]);
    if e.settings != map[] {
      var profile := c.naming.profile(e.name);
      SameOthers(s.profiles, profile, end.profiles[profile]);
    }
    if e.quota.Some? {
      var quota := c.naming.quota(e.name);
      SameOthers(s.quotas, quota, end.quotas[quota]);
    }
  }

  lemma SameOthers<V>(m: map<string, V>, k: string, v: V)
    ensures m[k := v] - {k} == m - {k}
  {
  }

  // ----- the privileges, one by one

  // A text without a brace holds no placeholder.
  lemma {:induction false} NoPlaceholder(t: string, database: string)
    requires '{' !in t
    ensures Replace(t, "{db}", database) == t
  {
    if t != "" {
      assert "{db}"[0] == '{';
      NoPlaceholder(t[1..], database);
    }
  }

  // The placeholder that a text without a brace leads up to is replaced, and the rest is read on.
  lemma {:induction false} PlaceholderReplaced(a: string, b: string, database: string)
    requires '{' !in a
    ensures Replace(a + "{db}" + b, "{db}", database) == a + database + Replace(b, "{db}", database)
  {
    var t := a + "{db}" + b;
    if a == "" {
      assert t == "{db}" + b && "{db}" <= t && t[4..] == b;
    } else {
      assert "{db}"[0] == '{' && t[0] == a[0];
      assert t[1..] == a[1..] + "{db}" + b;
      PlaceholderReplaced(a[1..], b, database);
    }
  }

  lemma DeclaredGrantsAre(c: Catalogue, e: Entry, database: string, g: string)
    ensures g in DeclaredGrants(c, e, database)
         <==> || (exists x <- e.grants :: g == Replace(x, "{db}", database))
              || (e.systemIntrospection
                  && exists t <- c.systemIntrospectionTables :: g == Replace("SELECT ON system." + t, "{db}", database))
  {
    hide Replace;
    var f := (t: string) => "SELECT ON system." + t;
    var p := (x: string) => Replace(x, DATABASE_PLACEHOLDER, database);
    var tables := c.systemIntrospectionTables;
    var system := if e.systemIntrospection then Mapped(f, tables) else [];
    var all := e.grants + system;
    assert DeclaredGrants(c, e, database) == Mapped(p, all);
    InMapped(p, all, g);
    InMapped(p, e.grants, g);
    InMapped(p, system, g);
    assert g in Mapped(p, all) <==> g in Mapped(p, e.grants) || g in Mapped(p, system);
    if e.systemIntrospection {
      MappedTwice(p, f, tables, g);
    }
  }

  lemma MappedTwice(p: string -> string, f: string -> string, xs: seq<string>, g: string)
    ensures g in Mapped(p, Mapped(f, xs)) <==> exists x <- xs :: g == p(f(x))
  {
    InMapped(p, Mapped(f, xs), g);
    if y :| y in Mapped(f, xs) && g == p(y) {
      InMapped(f, xs, y);
    }
    if x :| x in xs && g == p(f(x)) {
      InMapped(f, xs, f(x));
    }
  }

  lemma {:induction false} InMapped(f: string -> string, xs: seq<string>, y: string)
    ensures y in Mapped(f, xs) <==> exists x <- xs :: y == f(x)
  {
    if xs != [] {
      InMapped(f, xs[1..], y);
    }
  }

  // A role holds a privilege if and only if the entry declares it, or it reads a system table that the catalogue
  // lists and the entry may look at them; the database stands for its placeholder.
  lemma RoleHolds(d: Dialect, c: Catalogue, e: Entry, database: string, s: Server, g: string)
    requires HasLimits(e)
    ensures var after, role := Run(d, s, RoleStatements(c, e, database)), c.naming.role(e.name);
            && after.Some? && role in after.value.roles
            && (g in after.value.roles[role].grants
                <==> || (exists x <- e.grants :: g == Replace(x, "{db}", database))
                     || (e.systemIntrospection
                         && exists t <- c.systemIntrospectionTables ::
                              g == Replace("SELECT ON system." + t, "{db}", database)))
  {
    RoleHoldsCatalogue(d, c, e, database, s);
    DeclaredGrantsAre(c, e, database, g);
    hide Run, RoleStatements, DeclaredGrants, Replace;
  }

  lemma RoleRunTwice(d: Dialect, c: Catalogue, e: Entry, database: string, s: Server)
    ensures var after := Run(d, s, RoleStatements(c, e, database));
            after.Some? ==> Run(d, after.value, RoleStatements(c, e, database)) == after
  {
    RoleConverges(d, c, e, database, s);
    var once := Converged(d, c, e, database, s);
    RoleConverges(d, c, e, database, once);
    hide Run, RoleStatements, DeclaredGrants;
    AlteredTwice(d, e);
    assert forall k :: k in once.profiles ==> once.profiles[k := once.profiles[k]] == once.profiles;
    if e.quota.Some? {
      var was := once.quotas[c.naming.quota(e.name)];
      assert forall k :: k in was.intervals ==> was.intervals[k := was.intervals[k]] == was.intervals;
      assert once.quotas[c.naming.quota(e.name) := was] == once.quotas;
    }
    SameServer(Converged(d, c, e, database, once), once);
  }

  lemma AlteredTwice(d: Dialect, e: Entry)
    ensures forall was :: Altered(d, Altered(d, was, e.settings), e.settings) == Altered(d, was, e.settings)
    ensures e.quota.Some? ==>
              var limits := e.quota.value.limits;
              forall was :: Altered(d, Altered(d, was, limits), limits) == Altered(d, was, limits)
  {
  }

  lemma PutTwice<V>(m: map<string, V>, k: string, x: V, y: V)
    ensures m[k := x][k := y] == m[k := y]
  {
  }

  // ----- what holds between the statements

  ghost predicate Holds(s: Server, role: string, grants: seq<string>) {
    role in s.roles && ToSet(grants) <= s.roles[role].grants
  }

  ghost predicate KeepsGrants(st: Statement, role: string, grants: seq<string>) {
    match st
    case GrantReplacing(g, r) => r == role && g == grants
    case RevokeAll(r) => r == role && grants == []
    case _ => true
  }

  lemma {:induction false} RunHolds(d: Dialect, s: Server, sts: seq<Statement>, role: string, grants: seq<string>)
    requires Holds(s, role, grants) && forall i :: 0 <= i < |sts| ==> KeepsGrants(sts[i], role, grants)
    ensures Run(d, s, sts).Some? ==> Holds(Run(d, s, sts).value, role, grants)
    decreases |sts|
  {
    if sts != [] && Exec(d, s, sts[0]).Some? {
      var next := Exec(d, s, sts[0]).value;
      assert KeepsGrants(sts[0], role, grants);
      assert Holds(next, role, grants);
      hide Exec;
      RunHolds(d, next, sts[1..], role, grants);
    }
  }

  // On a re-run the role holds its whole list after every statement, the replacing one included.
  lemma RoleNeverBelowList(d: Dialect, c: Catalogue, e: Entry, database: string, s: Server, k: nat)
    requires k <= |RoleStatements(c, e, database)|
    requires Holds(s, c.naming.role(e.name), DeclaredGrants(c, e, database))
    ensures var mid := Run(d, s, RoleStatements(c, e, database)[..k]);
            (HasLimits(e) ==> mid.Some?) && (mid.Some?
              ==> Holds(mid.value, c.naming.role(e.name), DeclaredGrants(c, e, database)))
  {
    var sts := RoleStatements(c, e, database);
    RoleConverges(d, c, e, database, s);
    assert sts == sts[..k] + sts[k..];
    RunConcat(d, s, sts[..k], sts[k..]);
    forall i | 0 <= i < k ensures KeepsGrants(sts[..k][i], c.naming.role(e.name), DeclaredGrants(c, e, database)) {
      AllKeepGrants(c, e, database, i);
    }
    RunHolds(d, s, sts[..k], c.naming.role(e.name), DeclaredGrants(c, e, database));
  }

  lemma AllKeepGrants(c: Catalogue, e: Entry, database: string, i: nat)
    requires i < |RoleStatements(c, e, database)|
    ensures KeepsGrants(RoleStatements(c, e, database)[i], c.naming.role(e.name), DeclaredGrants(c, e, database))
  {
    hide DeclaredGrants;
  }

  // Why the role comes first: a quota cannot be created for a role the server does not have.
  lemma QuotaNeedsRole(d: Dialect, s: Server, before: seq<Statement>, quota: string, role: string,
      after: seq<Statement>)
    requires role !in s.roles && forall i :: 0 <= i < |before| ==> before[i] != CreateRole(role)
    ensures Run(d, s, before + [CreateQuota(quota, role)] + after).None?
  {
    RunConcat(d, s, before, [CreateQuota(quota, role)]);
    RunConcat(d, s, before + [CreateQuota(quota, role)], after);
    NoRoleYet(d, s, before, role);
    if Run(d, s, before).Some? {
      RunOne(d, Run(d, s, before).value, CreateQuota(quota, role));
    }
  }

  lemma {:induction false} NoRoleYet(d: Dialect, s: Server, sts: seq<Statement>, role: string)
    requires role !in s.roles && forall i :: 0 <= i < |sts| ==> sts[i] != CreateRole(role)
    ensures Run(d, s, sts).Some? ==> role !in Run(d, s, sts).value.roles
    decreases |sts|
  {
    if sts != [] && Exec(d, s, sts[0]).Some? {
      NoRoleYet(d, Exec(d, s, sts[0]).value, sts[1..], role);
    }
  }

  // ----- what an earlier entry leaves behind

  // The role's profile is the catalogue's, or none where the entry declares no settings, exactly when the entry
  // declares some or the role had none: no statement takes a profile off a role.
  lemma ProfileIsDeclared(d: Dialect, c: Catalogue, e: Entry, database: string, s: Server)
    ensures var after, role := Run(d, s, RoleStatements(c, e, database)), c.naming.role(e.name);
            after.Some? ==>
            && role in after.value.roles
            && (after.value.roles[role].profile == (if e.settings == map[] then None
              else Some(c.naming.profile(e.name)))
                <==> e.settings != map[] || role !in s.roles || s.roles[role].profile == None)
  {
    RoleConverges(d, c, e, database, s);
    hide Run, RoleStatements, DeclaredGrants;
  }

  // The profile holds the declared settings and no others exactly when nothing undeclared was in it, or an
  // ALTER drops what it does not name.
  lemma SettingsAreDeclared(d: Dialect, c: Catalogue, e: Entry, database: string, s: Server)
    requires e.settings != map[]
    ensures var after, profile := Run(d, s, RoleStatements(c, e, database)), c.naming.profile(e.name);
            after.Some? ==>
            && profile in after.value.profiles
            && (after.value.profiles[profile] == e.settings
                <==> !d.keepsUnnamed || (profile in s.profiles ==> s.profiles[profile].Keys <= e.settings.Keys))
  {
    RoleConverges(d, c, e, database, s);
    hide Run, RoleStatements, DeclaredGrants;
    var profile := c.naming.profile(e.name);
    if profile in s.profiles {
      var both := s.profiles[profile] + e.settings;
      assert both.Keys == s.profiles[profile].Keys + e.settings.Keys;
      assert s.profiles[profile].Keys <= e.settings.Keys ==> both == e.settings;
    }
  }

  // A quota that is no longer declared stays in force. One that is declared ends as declared exactly when it was
  // there for no other interval and, where an ALTER keeps what it does not name, with no other limit: an interval
  // and a limit that are declared no more stay in force too.
  lemma QuotaIsDeclared(d: Dialect, c: Catalogue, e: Entry, database: string, s: Server)
    ensures var after, quota := Run(d, s, RoleStatements(c, e, database)), c.naming.quota(e.name);
            var was := if quota in s.quotas then s.quotas[quota].intervals else map[];
            after.Some? ==>
            && (e.quota.None? ==> after.value.quotas == s.quotas)
            && (e.quota.Some? ==>
                  var q := e.quota.value;
                  var interval := IntervalOf(q);
                  && quota in after.value.quotas
                  && after.value.quotas[quota].intervals - {interval} == was - {interval}
                  && (after.value.quotas[quota] == Quota(map[interval := q.limits], {c.naming.role(e.name)})
                      <==> was.Keys <= {interval}
                           && (!d.keepsUnnamed || (interval in was ==> was[interval].Keys <= q.limits.Keys))))
  {
    RoleConverges(d, c, e, database, s);
    hide Run, RoleStatements, DeclaredGrants;
    if e.quota.Some? {
      var quota := c.naming.quota(e.name);
      var was := if quota in s.quotas then s.quotas[quota].intervals else map[];
      LimitsAreDeclared(d, was, IntervalOf(e.quota.value), e.quota.value.limits);
    }
  }

  lemma LimitsAreDeclared(d: Dialect, was: map<string, map<string, int>>, interval: string, limits: map<string, int>)
    ensures var before := if interval in was then was[interval] else map[];
            was[interval := Altered(d, before, limits)] == map[interval := limits]
            <==> was.Keys <= {interval} && (!d.keepsUnnamed || (interval in was ==> was[interval].Keys <= limits.Keys))
  {
    var before := if interval in was then was[interval] else map[];
    var after := was[interval := Altered(d, before, limits)];
    assert (before + limits).Keys == before.Keys + limits.Keys;
    assert before.Keys <= limits.Keys ==> before + limits == limits;
    assert after.Keys == was.Keys + {interval};
    assert after[interval] == Altered(d, before, limits);
  }

  // A server whose ALTER keeps what it does not name, with a quota for the hour that an entry no longer limits
  // by errors: the limit stays, though no other interval is there.
  lemma DroppedLimitStays(c: Catalogue, e: Entry, database: string)
    requires e.quota == Some(QuotaDecl(None, map["queries" := 100]))
    ensures var quota, role := c.naming.quota(e.name), c.naming.role(e.name);
            var was := map["1 hour" := map["queries" := 10, "errors" := 1]];
            var s := Server(map[], map[], map[quota := Quota(was, {role})]);
            var after := Run(Dialect(true), s, RoleStatements(c, e, database));
            && after.Some? && quota in after.value.quotas
            && after.value.quotas[quota].intervals == map["1 hour" := map["queries" := 100, "errors" := 1]]
  {
    var quota, role := c.naming.quota(e.name), c.naming.role(e.name);
    var was := map["1 hour" := map["queries" := 10, "errors" := 1]];
    assert "queries" in e.quota.value.limits && "1 hour" in was;
    assert was["1 hour"] + e.quota.value.limits == map["queries" := 100, "errors" := 1];
    assert was["1 hour" := map["queries" := 100, "errors" := 1]]
      == map["1 hour" := map["queries" := 100, "errors" := 1]];
    RoleConverges(Dialect(true), c, e, database, Server(map[], map[], map[quota := Quota(was, {role})]));
    hide Run, RoleStatements, DeclaredGrants;
  }

  // ----- the tenant

  datatype Tenant = Tenant(role: string, systemTables: seq<string>)

  function TenantStatements(t: Tenant): seq<Statement> {
    [CreateRole(t.role), ReplaceGrants(Mapped(x => "SELECT ON system." + x, t.systemTables), t.role)]
  }

  lemma TenantConverges(d: Dialect, t: Tenant, s: Server)
    ensures var after := Run(d, s, TenantStatements(t));
            && after.Some?
            && t.role in after.value.roles
            && (forall g ::
                  g in after.value.roles[t.role].grants <==> exists x <- t.systemTables :: g == "SELECT ON system." + x)
            && after.value.roles - {t.role} == s.roles - {t.role}
            && after.value.profiles == s.profiles && after.value.quotas == s.quotas
            && Run(d, after.value, TenantStatements(t)) == after
  {
    var f := (x: string) => "SELECT ON system." + x;
    var grants := Mapped(f, t.systemTables);
    assert TenantStatements(t) == [CreateRole(t.role), ReplaceGrants(grants, t.role)];
    forall g ensures g in ToSet(grants) <==> exists x <- t.systemTables :: g == "SELECT ON system." + x {
      InMapped(f, t.systemTables, g);
    }
    RunTwo(d, s, CreateRole(t.role), ReplaceGrants(grants, t.role));
    assert ToSet([]) == {};
    var s' := Run(d, s, TenantStatements(t)).value;
    RunTwo(d, s', CreateRole(t.role), ReplaceGrants(grants, t.role));
    GrantsReplaced(d, s', grants, t.role);
    SameServer(s'.(roles := s'.roles[t.role := s'.roles[t.role].(grants := ToSet(grants))]), s');
  }
}
