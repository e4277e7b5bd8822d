/** The platform probe: one cached decision over a client that may fail at any call. */
module Probe {
  import opened Text
  import opened Wrappers

  datatype Platform = Cloud | SelfHosted
  datatype Origin = Override | Probed | Hostname | Default

  datatype Query = EngineQuery | KeeperQuery | MacrosQuery | ClusterQuery(cluster: string) | DirectoriesQuery

  // What a query comes back with. A reply of the wrong shape raises where it is read, as a failure does.
  datatype Reply = Failed | Counts(cells: seq<Option<int>>) | Table(rows: seq<(string, string)>)

  // `_scalar`: the first cell, 0 for no rows or a null, and None where it raises.
  function Scalar(r: Reply): Option<int> {
    if !r.Counts? then None
    else if r.cells == [] || r.cells[0].None? then Some(0)
    else r.cells[0]
  }

  // `str.lower`, as far as it makes letters of ASCII: the Kelvin sign becomes a k.
  function LowerChar(c: char): char {
    if 'A' <= c <= 'Z' then c + ' ' else if c == '\U{212A}' then 'k' else c
  }

  function Lower(t: string): string {
    if t == "" then "" else [LowerChar(t[0])] + Lower(t[1..])
  }

  function DropDots(t: string): string {
    if t != "" && t[|t| - 1] == '.' then DropDots(t[..|t| - 1]) else t
  }

  predicate EndsWith(t: string, suffix: string) {
    |suffix| <= |t| && t[|t| - |suffix|..] == suffix
  }

  const CLOUD_HOST_SUFFIXES := {".clickhouse.cloud", ".clickhouse-byoc.com"}

  function PlatformFromHost(host: string): Platform {
    var name := Lower(DropDots(Trim(host)));
    if exists s <- CLOUD_HOST_SUFFIXES :: EndsWith(name, s) then Cloud else SelfHosted
  }

  // ----- the client

  // Any client at all: each reply is arbitrary. The log is what a proof may look at.
  class Client {
    ghost var log: seq<(Query, Reply)>

    constructor ()
      ensures log == []
    {
      log := [];
    }

    method Run(q: Query) returns (r: Reply)
      modifies this
      ensures log == old(log) + [(q, r)]
    {
      r := *;
      log := log + [(q, r)];
    }
  }

  function EngineQueries(log: seq<(Query, Reply)>): nat {
    if log == [] then 0 else (if log[0].0.EngineQuery? then 1 else 0) + EngineQueries(log[1..])
  }

  lemma {:induction false} EngineQueriesConcat(a: seq<(Query, Reply)>, b: seq<(Query, Reply)>)
    ensures EngineQueries(a + b) == EngineQueries(a) + EngineQueries(b)
  {
    if a == [] {
      assert a + b == b;
    } else {
      assert (a + b)[1..] == a[1..] + b;
      EngineQueriesConcat(a[1..], b);
    }
  }

  // ----- the rules

  // The cascade, given the engine query's reply where there was a client to ask.
  function Cascade(pinned: Option<Platform>, reply: Option<Reply>, host: Option<string>): (Platform, Origin) {
    if pinned.Some? then (pinned.value, Override)
    else if reply.Some? && Scalar(reply.value).Some? then
      (if Scalar(reply.value).value > 0 then Cloud else SelfHosted, Probed)
    else if host.Some? && host.value != "" then (PlatformFromHost(host.value), Hostname)
    else (SelfHosted, Default)
  }

  // An override decides; else the engine query, where it answers: Cloud for a first cell of one and more, and
  // self-hosted for nought, a null or no row at all; else a host that is not empty; else nothing does.
  lemma CascadeDecides(pinned: Option<Platform>, reply: Option<Reply>, host: Option<string>)
    ensures var r := Cascade(pinned, reply, host);
            var answered := reply.Some? && reply.value.Counts?;
            && (pinned.Some? ==> r == (pinned.value, Override))
            && (pinned.None? && answered ==>
                  var cells := reply.value.cells;
                  && r.1 == Probed
                  && (r.0 == Cloud <==> cells != [] && cells[0].Some? && cells[0].value >= 1))
            && (pinned.None? && !answered && host.Some? && host.value != "" ==>
                  r == (PlatformFromHost(host.value), Hostname))
            && (pinned.None? && !answered && (host.None? || host.value == "") ==> r == (SelfHosted, Default))
  {
    hide PlatformFromHost;
  }

  // ----- what a host says

  // The same letters in any case.
  ghost predicate SameButCase(t: string, word: string) {
    |t| == |word| && forall i :: 0 <= i < |t| ==>
      t[i] == word[i] || ('A' <= t[i] <= 'Z' && t[i] as int + 32 == word[i] as int)
        || (t[i] == '\U{212A}' && word[i] == 'k')
  }

  ghost predicate AllDots(t: string) {
    forall i :: 0 <= i < |t| ==> t[i] == '.'
  }

  // A host as it is read: whitespace, a name, dots, whitespace.
  ghost predicate IsHost(host: string, w: string, name: string, dots: string, v: string) {
    && host == w + (name + dots) + v && AllSpace(w) && AllSpace(v) && AllDots(dots)
    && (name != "" ==> !IsSpace(name[0]) && name[|name| - 1] != '.' && (dots == "" ==> !IsSpace(name[|name| - 1])))
  }

  lemma {:induction false} LowerIs(t: string)
    ensures |Lower(t)| == |t| && forall i :: 0 <= i < |t| ==> Lower(t)[i] == LowerChar(t[i])
  {
    if t != "" {
      LowerIs(t[1..]);
    }
  }

  lemma {:induction false} DropDotsOff(name: string, dots: string)
    requires AllDots(dots) && (name != "" ==> name[|name| - 1] != '.')
    ensures DropDots(name + dots) == name
  {
    if dots == "" {
      assert name + dots == name;
    } else {
      assert (name + dots)[..|name + dots| - 1] == name + dots[..|dots| - 1];
      assert (name + dots)[|name + dots| - 1] == dots[|dots| - 1];
      DropDotsOff(name, dots[..|dots| - 1]);
    }
  }

  lemma DotIsNoSpace()
    ensures !IsSpace('.')
  {
  }

  lemma TrimOff(w: string, t: string, v: string)
    requires AllSpace(w) && AllSpace(v) && (t != "" ==> !IsSpace(t[0]) && !IsSpace(t[|t| - 1]))
    ensures Trim(w + t + v) == t
  {
    if t == "" {
      assert w + t + v == (w + v) + "";
      LTrimSpaces(w + v, "");
    } else {
      assert w + t + v == w + (t + v) && (t + v)[0] == t[0];
      LTrimSpaces(w, t + v);
      RTrimConcat(t, v);
    }
  }

  // Every host is read so in one way.
  lemma HostIsRead(host: string) returns (w: string, name: string, dots: string, v: string)
    ensures IsHost(host, w, name, dots, v)
  {
    hide *;
    var l := LTrim(host);
    var t := RTrim(l);
    LeadIs(host);
    DropDotsPrefix(t);
    w, v, name, dots := LeadOf(host), l[|t|..], DropDots(t), t[|DropDots(t)|..];
    HostParts(host, w, l, t, name);
  }

  lemma HostParts(host: string, w: string, l: string, t: string, name: string)
    requires host == w + l && AllSpace(w) && (l != "" ==> !IsSpace(l[0]))
    requires t <= l && AllSpace(l[|t|..]) && (t != "" ==> !IsSpace(t[|t| - 1]))
    requires name <= t && AllDots(t[|name|..]) && (name != "" ==> name[|name| - 1] != '.')
    ensures IsHost(host, w, name, t[|name|..], l[|t|..])
  {
    hide IsSpace;
    var dots, v := t[|name|..], l[|t|..];
    assert t == name + dots && l == t + v;
    assert host == w + (name + dots) + v;
    if name != "" {
      assert name[0] == t[0] == l[0];
      assert dots == "" ==> name == t;
    }
  }

  function LeadOf(t: string): string {
    if t != "" && IsSpace(t[0]) then [t[0]] + LeadOf(t[1..]) else ""
  }

  lemma {:induction false} LeadIs(t: string)
    ensures AllSpace(LeadOf(t)) && t == LeadOf(t) + LTrim(t)
  {
    if t != "" && IsSpace(t[0]) {
      LeadIs(t[1..]);
      assert t == [t[0]] + t[1..];
    }
  }

  lemma {:induction false} DropDotsPrefix(t: string)
    ensures var d := DropDots(t);
            d <= t && AllDots(t[|d|..]) && (d != "" ==> d[|d| - 1] != '.')
            && (d == t && t != "" && !IsSpace(t[|t| - 1]) ==> !IsSpace(d[|d| - 1]))
  {
    if t != "" && t[|t| - 1] == '.' {
      var u := t[..|t| - 1];
      DropDotsPrefix(u);
      assert t[|DropDots(t)|..] == u[|DropDots(t)|..] + ".";
    }
  }

  lemma EndsInAnyCase(name: string, suffix: string)
    requires forall i :: 0 <= i < |suffix| ==> !('A' <= suffix[i] <= 'Z') && suffix[i] < '\U{80}'
    ensures EndsWith(Lower(name), suffix) <==> |suffix| <= |name| && SameButCase(name[|name| - |suffix|..], suffix)
  {
    LowerIs(name);
    if |suffix| <= |name| {
      LowerTail(name, |name| - |suffix|, suffix);
    }
  }

  lemma LowerCharIs(c: char, d: char)
    requires !('A' <= d <= 'Z') && d < '\U{80}'
    ensures LowerChar(c) == d
         <==> c == d || ('A' <= c <= 'Z' && c as int + 32 == d as int) || (c == '\U{212A}' && d == 'k')
  {
  }

  lemma LowerTail(name: string, k: nat, suffix: string)
    requires |name| == k + |suffix|
    requires forall i :: 0 <= i < |suffix| ==> !('A' <= suffix[i] <= 'Z') && suffix[i] < '\U{80}'
    requires |Lower(name)| == |name| && forall i :: 0 <= i < |name| ==> Lower(name)[i] == LowerChar(name[i])
    ensures Lower(name)[k..] == suffix <==> SameButCase(name[k..], suffix)
  {
    hide Lower, LowerChar;
    var low, t := Lower(name)[k..], name[k..];
    forall i | 0 <= i < |suffix|
      ensures low[i] == suffix[i]
         <==> t[i] == suffix[i] || ('A' <= t[i] <= 'Z' && t[i] as int + 32 == suffix[i] as int)
              || (t[i] == '\U{212A}' && suffix[i] == 'k')
    {
      assert low[i] == LowerChar(t[i]);
      LowerCharIs(t[i], suffix[i]);
    }
    if low == suffix {
      assert forall i :: 0 <= i < |suffix| ==> low[i] == suffix[i];
    }
    if SameButCase(t, suffix) {
      assert forall i :: 0 <= i < |suffix| ==> low[i] == suffix[i];
    }
  }

  lemma SuffixesAreLower()
    ensures forall i :: 0 <= i < 17 ==> !('A' <= ".clickhouse.cloud"[i] <= 'Z') && ".clickhouse.cloud"[i] < '\U{80}'
    ensures forall i :: 0 <= i < 20 ==> !('A' <= ".clickhouse-byoc.com"[i] <= 'Z')
    ensures forall i :: 0 <= i < 20 ==> ".clickhouse-byoc.com"[i] < '\U{80}'
  {
  }

  // A host is Cloud exactly when its name ends, in any case, in one of the two endpoints.
  lemma HostDecides(host: string, w: string, name: string, dots: string, v: string)
    requires IsHost(host, w, name, dots, v)
    ensures PlatformFromHost(host) == Cloud
         <==> || (|name| >= 17 && SameButCase(name[|name| - 17..], ".clickhouse.cloud"))
              || (|name| >= 20 && SameButCase(name[|name| - 20..], ".clickhouse-byoc.com"))
  {
    var t := name + dots;
    DotIsNoSpace();
    if t != "" {
      assert t[0] == if name != "" then name[0] else dots[0];
      assert t[|t| - 1] == if dots != "" then dots[|dots| - 1] else name[|name| - 1];
    }
    SuffixesAreLower();
    EndsInAnyCase(name, ".clickhouse.cloud");
    EndsInAnyCase(name, ".clickhouse-byoc.com");
    hide IsSpace, Trim, DropDots, Lower, SameButCase, EndsWith;
    TrimOff(w, t, v);
    DropDotsOff(name, dots);
    assert CLOUD_HOST_SUFFIXES == {".clickhouse.cloud", ".clickhouse-byoc.com"};
  }

  datatype Missing = Keeper | Macro(name: string) | RemoteServers
  datatype Outcome =
    | Passed
    | NotConfigured(missing: seq<Missing>)
    | LocalAccess(storage: Option<string>)
    | NoClient
    | QueryFailed

  const REQUIRED_MACROS := ["cluster", "shard", "replica"]
  const WRITABLE_ACCESS := {"local_directory", "memory", "replicated"}

  // The macros table as a dictionary: a later row replaces an earlier one.
  function MacroMap(rows: seq<(string, string)>): map<string, string> {
    if rows == [] then map[] else MacroMap(rows[..|rows| - 1])[rows[|rows| - 1].0 := rows[|rows| - 1].1]
  }

  function MissingMacros(macros: map<string, string>, names: seq<string>): seq<Missing> {
    if names == [] then []
    else (if names[0] in macros then [] else [Macro(names[0])]) + MissingMacros(macros, names[1..])
  }

  function FirstWritable(rows: seq<(string, string)>): Option<string> {
    if rows == [] then None
    else if rows[0].0 in WRITABLE_ACCESS then Some(rows[0].0)
    else FirstWritable(rows[1..])
  }

  // A self-hosted server can hold a Replicated database and its roles, as far as these replies say.
  ghost predicate Configured(r: Replies)
    requires Scalar(r.keeper).Some? && r.macros.Table? && Scalar(r.cluster).Some? && r.directories.Table?
  {
    var m := MacroMap(r.macros.rows);
    && Scalar(r.keeper).value != 0
    && "cluster" in m && "shard" in m && "replica" in m
    && Scalar(r.cluster).value != 0
    && (Scalar(r.cluster).value > 1 ==> FirstWritable(r.directories.rows) == Some("replicated"))
  }

  // ----- the probe

  class PlatformProbe {
    const client: Client?
    const host: Option<string>
    const pinned: Option<Platform>
    var resolved: Option<(Platform, Origin)>
    ghost const start: nat

    // What the client has been asked since the probe was made.
    ghost function Asked(): seq<(Query, Reply)>
      requires client != null ==> start <= |client.log|
      reads this, client
    {
      if client == null then [] else client.log[start..]
    }

    ghost predicate Valid()
      reads this, client
    {
      && (client != null ==> start <= |client.log|)
      && EngineQueries(Asked()) <= 1
      && (resolved.None? ==> EngineQueries(Asked()) == 0)
    }

    constructor (client: Client?, host: Option<string>, pinned: Option<Platform>)
      ensures Valid() && Asked() == [] && resolved == None
      ensures this.client == client && this.host == host && this.pinned == pinned
    {
      this.client, this.host, this.pinned, resolved := client, host, pinned, None;
      start := if client == null then 0 else |client.log|;
    }

    // `r` is what was decided before, without a query, or else what the cascade makes of the queries between
    // `asked` and `now`: the engine query alone, and only where a client is there and nothing is pinned.
    ghost predicate Decided(
      was: Option<(Platform, Origin)>, asked: seq<(Query, Reply)>, now: seq<(Query, Reply)>, r: (Platform, Origin))
    {
      if was.Some? then now == asked && r == was.value
      else if pinned.Some? || client == null then now == asked && r == Cascade(pinned, None, host)
      else
        && |now| == |asked| + 1 && now[..|asked|] == asked && now[|asked|].0 == EngineQuery
        && r == Cascade(pinned, Some(now[|asked|].1), host)
    }

    // What is decided where no query answers.
    function ByHost(): (Platform, Origin) {
      if host.Some? && host.value != "" then (PlatformFromHost(host.value), Hostname) else (SelfHosted, Default)
    }

    method Resolve() returns (r: (Platform, Origin))
      requires Valid()
      modifies this, client
      ensures Valid() && resolved == Some(r)
      ensures Decided(old(resolved), old(Asked()), Asked(), r)
      ensures old(resolved).None? && pinned.Some? ==> r == (pinned.value, Override)
      ensures old(resolved).None? && pinned.None? && client == null ==> r == ByHost()
      ensures old(resolved).None? && pinned.None? && client != null ==>
                |Asked()| == |old(Asked())| + 1 &&
                match Asked()[|old(Asked())|].1
                case Counts(cells) =>
                  r == (if cells != [] && cells[0].Some? && cells[0].value >= 1 then Cloud else SelfHosted, Probed)
                case _ => r == ByHost()
    {
      if resolved.Some? {
        return resolved.value;
      }
      ghost var before := Asked();
      if pinned.Some? {
        r := (pinned.value, Override);
        resolved := Some(r);
        return;
      }
      if client != null {
        var reply := client.Run(EngineQuery);
        assert Asked() == before + [(EngineQuery, reply)];
        EngineQueriesConcat(before, [(EngineQuery, reply)]);
        var count := Scalar(reply);
        if count.Some? {
          r := (if count.value > 0 then Cloud else SelfHosted, Probed);
          resolved := Some(r);
          return;
        }
      }
      if host.Some? && host.value != "" {
        r := (PlatformFromHost(host.value), Hostname);
      } else {
        r := (SelfHosted, Default);
      }
      resolved := Some(r);
    }

    // One query that is not the engine query.
    method Ask(q: Query) returns (r: Reply)
      requires Valid() && client != null && resolved.Some? && !q.EngineQuery?
      modifies client
      ensures Valid() && Asked() == old(Asked()) + [(q, r)]
    {
      ghost var before := Asked();
      r := client.Run(q);
      assert Asked() == before + [(q, r)];
      EngineQueriesConcat(before, [(q, r)]);
    }

    // The last check: whether roles land where every server sees them.
    method RequireReplicatedAccess() returns (outcome: Outcome, ghost directories: Reply)
      requires Valid() && client != null && resolved.Some?
      modifies client
      ensures Valid() && Asked() == old(Asked()) + [(DirectoriesQuery, directories)]
      ensures outcome == if !directories.Table? then QueryFailed
                         else if FirstWritable(directories.rows) == Some("replicated") then Passed
                         else LocalAccess(FirstWritable(directories.rows))
    {
      var reply := Ask(DirectoriesQuery);
      directories := reply;
      if !reply.Table? {
        return QueryFailed, directories;
      }
      var writesTo := FirstWritable(reply.rows);
      if writesTo == Some("replicated") {
        return Passed, directories;
      }
      outcome := LocalAccess(writesTo);
    }

    method RequireReplication() returns (outcome: Outcome, ghost replies: Replies, ghost before: seq<(Query, Reply)>)
      requires Valid()
      modifies this, client
      ensures Valid() && resolved.Some? && Decided(old(resolved), old(Asked()), before, resolved.value)
      ensures outcome == Judged(resolved.value.0, client != null, replies)
      ensures Asked() == before + Transcript(resolved.value.0, client != null, replies)
    {
      hide MacroMap, MissingMacros, FirstWritable, Scalar, Cascade, EngineQueries, Decided;
      replies := Replies(Failed, Failed, Failed, Failed);
      var decision := Resolve();
      before := Asked();
      if decision.0 == Cloud {
        return Passed, replies, before;
      }
      if client == null {
        return NoClient, replies, before;
      }
      var missing: seq<Missing> := [];
      var reply := Ask(KeeperQuery);
      replies := replies.(keeper := reply);
      var keeper := Scalar(reply);
      if keeper.None? {
        return QueryFailed, replies, before;
      }
      if keeper.value == 0 {
        missing := missing + [Keeper];
      }
      reply := Ask(MacrosQuery);
      replies := replies.(macros := reply);
      Two(before, (KeeperQuery, replies.keeper), (MacrosQuery, reply));
      if !reply.Table? {
        return QueryFailed, replies, before;
      }
      var macros := MacroMap(reply.rows);
      missing := missing + MissingMacros(macros, REQUIRED_MACROS);
      assert missing == Faults(replies);
      MacrosFault(macros);
      FaultsStay(replies);
      if "cluster" !in macros {
        return NotConfigured(missing), replies, before;
      }
      hide Faults;
      reply := Ask(ClusterQuery(macros["cluster"]));
      replies := replies.(cluster := reply);
      Two(before + [(KeeperQuery, replies.keeper)], (MacrosQuery, replies.macros),
        (ClusterQuery(macros["cluster"]), reply));
      Three(before, (KeeperQuery, replies.keeper), (MacrosQuery, replies.macros),
        (ClusterQuery(macros["cluster"]), reply));
      var count := Scalar(reply);
      if count.None? {
        return QueryFailed, replies, before;
      }
      var servers := count.value;
      if servers == 0 {
        missing := missing + [RemoteServers];
      }
      if missing != [] {
        return NotConfigured(missing), replies, before;
      }
      outcome := Passed;
      if servers > 1 {
        ghost var directories;
        outcome, directories := RequireReplicatedAccess();
        replies := replies.(directories := directories);
      }
    }
  }

  lemma Two<T>(a: seq<T>, x: T, y: T)
    ensures a + [x] + [y] == a + [x, y]
  {
  }

  lemma Three<T>(a: seq<T>, x: T, y: T, z: T)
    ensures a + [x] + [y] + [z] == a + [x, y, z] && forall w :: a + [x] + [y] + [z] + [w] == a + ([x, y, z] + [w])
  {
  }

  lemma MacrosFault(macros: map<string, string>)
    ensures "cluster" !in macros ==> MissingMacros(macros, REQUIRED_MACROS) != []
  {
    NoMissingMacros(macros);
  }

  // The replies to the four checks; one never asked for is not looked at.
  datatype Replies = Replies(keeper: Reply, macros: Reply, cluster: Reply, directories: Reply)

  function Faults(r: Replies): seq<Missing>
    requires Scalar(r.keeper).Some? && r.macros.Table?
  {
    (if Scalar(r.keeper).value == 0 then [Keeper] else []) + MissingMacros(MacroMap(r.macros.rows), REQUIRED_MACROS)
  }

  lemma FaultsStay(r: Replies)
    requires Scalar(r.keeper).Some? && r.macros.Table?
    ensures forall s: Replies :: s.keeper == r.keeper && s.macros == r.macros ==> Faults(s) == Faults(r)
  {
  }

  // The verdict on the replies.
  function Judged(platform: Platform, hasClient: bool, r: Replies): Outcome {
    if platform == Cloud then Passed
    else if !hasClient then NoClient
    else if Scalar(r.keeper).None? || !r.macros.Table? then QueryFailed
    else if "cluster" !in MacroMap(r.macros.rows) then NotConfigured(Faults(r))
    else if Scalar(r.cluster).None? then QueryFailed
    else
      var all := Faults(r) + if Scalar(r.cluster).value == 0 then [RemoteServers] else [];
      if all != [] then NotConfigured(all)
      else if Scalar(r.cluster).value <= 1 then Passed
      else if !r.directories.Table? then QueryFailed
      else if FirstWritable(r.directories.rows) == Some("replicated") then Passed
      else LocalAccess(FirstWritable(r.directories.rows))
  }

  // What is asked to reach it, in order: each question only when the replies so far call for it.
  function Transcript(platform: Platform, hasClient: bool, r: Replies): seq<(Query, Reply)> {
    if platform == Cloud || !hasClient then []
    else if Scalar(r.keeper).None? then [(KeeperQuery, r.keeper)]
    else if !r.macros.Table? || "cluster" !in MacroMap(r.macros.rows)
      then [(KeeperQuery, r.keeper), (MacrosQuery, r.macros)]
    else
      var three := [(KeeperQuery, r.keeper), (MacrosQuery, r.macros),
        (ClusterQuery(MacroMap(r.macros.rows)["cluster"]), r.cluster)];
      if Scalar(r.cluster).None? || Scalar(r.cluster).value <= 1 || Faults(r) != [] then three
      else three + [(DirectoriesQuery, r.directories)]
  }

  lemma MissingStep(macros: map<string, string>, name: string, rest: seq<string>)
    ensures MissingMacros(macros, [name] + rest) == [] <==> name in macros && MissingMacros(macros, rest) == []
    ensures MissingMacros(macros, []) == []
  {
    assert ([name] + rest)[1..] == rest;
  }

  lemma NoMissingMacros(macros: map<string, string>)
    ensures MissingMacros(macros, REQUIRED_MACROS) == []
         <==> "cluster" in macros && "shard" in macros && "replica" in macros
  {
    MissingStep(macros, "cluster", ["shard", "replica"]);
    MissingStep(macros, "shard", ["replica"]);
    MissingStep(macros, "replica", []);
    hide MissingMacros;
    assert REQUIRED_MACROS == ["cluster"] + ["shard", "replica"];
    assert ["shard", "replica"] == ["shard"] + ["replica"] && ["replica"] == ["replica"] + [];
  }

  // When its queries succeed the check passes on Cloud, and otherwise exactly on a configured server.
  lemma PassesExactlyWhenConfigured(platform: Platform, r: Replies)
    requires Scalar(r.keeper).Some? && r.macros.Table? && Scalar(r.cluster).Some? && r.directories.Table?
    ensures Judged(platform, true, r) == Passed <==> platform == Cloud || Configured(r)
  {
    NoMissingMacros(MacroMap(r.macros.rows));
    hide MacroMap, MissingMacros, FirstWritable, Scalar;
  }

  // A failed query never lets an unconfigured server through.
  lemma FailureNeverPasses(hasClient: bool, r: Replies)
    requires Judged(SelfHosted, hasClient, r) == Passed
    ensures hasClient && Scalar(r.keeper).Some? && Scalar(r.keeper).value != 0 && r.macros.Table?
    ensures Scalar(r.cluster).Some? && Scalar(r.cluster).value != 0
    ensures Scalar(r.cluster).value > 1 ==>
              r.directories.Table? && FirstWritable(r.directories.rows) == Some("replicated")
    ensures var m := MacroMap(r.macros.rows); "cluster" in m && "shard" in m && "replica" in m
  {
    if r.macros.Table? {
      NoMissingMacros(MacroMap(r.macros.rows));
    }
    hide MacroMap, MissingMacros, FirstWritable, Scalar;
  }

  // ----- what the replies are read as

  // A macro has the substitution of the last row that names it.
  lemma {:induction false} MacroMapIs(rows: seq<(string, string)>)
    ensures var m := MacroMap(rows);
            && (forall n :: n in m <==> exists i :: 0 <= i < |rows| && rows[i].0 == n)
            && (forall i :: 0 <= i < |rows| && (forall j :: i < j < |rows| ==> rows[j].0 != rows[i].0) ==>
                  rows[i].0 in m && m[rows[i].0] == rows[i].1)
  {
    if rows != [] {
      var init, last := rows[..|rows| - 1], rows[|rows| - 1];
      MacroMapIs(init);
      forall n ensures n in MacroMap(rows) <==> exists i :: 0 <= i < |rows| && rows[i].0 == n {
        if n in MacroMap(init) {
          var i :| 0 <= i < |init| && init[i].0 == n;
          assert rows[i].0 == n;
        }
        if exists i :: 0 <= i < |rows| && rows[i].0 == n {
          var i :| 0 <= i < |rows| && rows[i].0 == n;
          assert i < |init| ==> init[i].0 == n;
        }
      }
      forall i | 0 <= i < |rows| && (forall j :: i < j < |rows| ==> rows[j].0 != rows[i].0)
        ensures rows[i].0 in MacroMap(rows) && MacroMap(rows)[rows[i].0] == rows[i].1
      {
        if i < |init| {
          assert init[i] == rows[i] && forall j :: i < j < |init| ==> init[j] == rows[j];
        }
      }
    }
  }

  // Roles land in the first storage that takes any.
  lemma {:induction false} FirstWritableIs(rows: seq<(string, string)>)
    ensures var first := FirstWritable(rows);
            && (first == None
                <==> forall i :: 0 <= i < |rows| ==> rows[i].0 !in {"local_directory", "memory", "replicated"})
            && (first.Some? ==>
                  && first.value in {"local_directory", "memory", "replicated"}
                  && exists i ::
                       && 0 <= i < |rows| && rows[i].0 == first.value
                       && forall j :: 0 <= j < i ==> rows[j].0 !in {"local_directory", "memory", "replicated"})
  {
    assert WRITABLE_ACCESS == {"local_directory", "memory", "replicated"};
    if rows != [] && rows[0].0 !in WRITABLE_ACCESS {
      var rest := rows[1..];
      FirstWritableIs(rest);
      assert forall i :: 0 <= i < |rest| ==> rest[i] == rows[i + 1];
      assert forall i :: 1 <= i < |rows| ==> rows[i] == rest[i - 1];
      if FirstWritable(rest).Some? {
        var i :| 0 <= i < |rest| && rest[i].0 == FirstWritable(rest).value
          && forall j :: 0 <= j < i ==> rest[j].0 !in WRITABLE_ACCESS;
        assert rows[i + 1].0 == FirstWritable(rest).value;
        assert forall j :: 0 < j < i + 1 ==> rows[j] == rest[j - 1];
      }
    }
  }

  lemma {:induction false} MissingMacrosAre(macros: map<string, string>, names: seq<string>)
    ensures forall p :: p in MissingMacros(macros, names) <==> p.Macro? && p.name in names && p.name !in macros
  {
    if names != [] {
      MissingMacrosAre(macros, names[1..]);
    }
  }

  // A refusal names what is missing, and nothing else: Keeper where none is connected, each of the three macros
  // that is not defined, and the cluster where its macro is defined and no server is in it.
  lemma RefusalNamesWhatIsMissing(r: Replies, missing: seq<Missing>)
    requires Judged(SelfHosted, true, r) == NotConfigured(missing)
    ensures r.keeper.Counts? && r.macros.Table? && missing != []
    ensures Keeper in missing <==> Scalar(r.keeper) == Some(0)
    ensures forall n :: Macro(n) in missing <==> n in {"cluster", "shard", "replica"} && n !in MacroMap(r.macros.rows)
    ensures RemoteServers in missing <==> "cluster" in MacroMap(r.macros.rows) && Scalar(r.cluster) == Some(0)
  {
    var macros := MacroMap(r.macros.rows);
    MissingMacrosAre(macros, REQUIRED_MACROS);
    MacrosFault(macros);
    assert forall n :: n in REQUIRED_MACROS <==> n in {"cluster", "shard", "replica"};
    hide MacroMap, MissingMacros;
  }

  // The questions, in order; each is asked only when the ones before it leave the verdict open.
  lemma AsksInOrder(r: Replies)
    ensures var asked := Transcript(SelfHosted, true, r);
            && 1 <= |asked| <= 4 && asked[0] == (KeeperQuery, r.keeper)
            && (|asked| > 1 <==> r.keeper.Counts?)
            && (|asked| > 1 ==> asked[1] == (MacrosQuery, r.macros))
            && (|asked| > 2 <==> r.keeper.Counts? && r.macros.Table? && "cluster" in MacroMap(r.macros.rows))
            && (|asked| > 2 ==> asked[2] == (ClusterQuery(MacroMap(r.macros.rows)["cluster"]), r.cluster))
            && (|asked| > 3 ==> asked[3] == (DirectoriesQuery, r.directories))
            && (|asked| > 3 <==> |asked| > 2 && r.cluster.Counts? && Scalar(r.cluster).value > 1 && Faults(r) == [])
    ensures Transcript(Cloud, true, r) == [] == Transcript(SelfHosted, false, r)
  {
    hide MacroMap, Faults;
  }

  // ----- over any sequence of calls

  datatype Call = AskPlatform | AskOrigin | CheckReplication

  method Drive(probe: PlatformProbe, calls: seq<Call>) returns (seen: seq<(Platform, Origin)>)
    requires probe.Valid()
    modifies probe, probe.client
    ensures probe.Valid() && EngineQueries(probe.Asked()) <= 1
    ensures |seen| == |calls| && forall i, j :: 0 <= i < j < |seen| ==> seen[i] == seen[j]
    ensures forall i :: 0 <= i < |seen| ==> probe.resolved == Some(seen[i])
  {
    seen := [];
    var n := 0;
    while n < |calls|
      invariant 0 <= n <= |calls| == |calls| && |seen| == n
      invariant probe.Valid()
      invariant forall i :: 0 <= i < n ==> probe.resolved == Some(seen[i])
    {
      if calls[n] == CheckReplication {
        var outcome, _, _ := probe.RequireReplication();
      }
      var r := probe.Resolve();
      seen := seen + [r];
      n := n + 1;
    }
  }
}
