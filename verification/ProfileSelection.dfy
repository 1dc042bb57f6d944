/** Which consumer profiles a meeting gets: validation of the catalog, of the defaults and of
    the selection, in one pass that collects every problem it meets. */
module ProfileSelection {
  import opened Prelude

  datatype Sink = MeetingText | MeetingVoice | ListenerNotice | OtherSink(name: string)

  datatype Capability = MeetingOutput | ListenerOutput | OtherCapability(name: string)

  datatype Profile = Profile(
    id: string, agentAppId: string, ownedSinks: seq<Sink>, capabilities: seq<Capability>, listenerThread: bool)

  datatype Config = Config(profiles: Option<seq<Profile>>, agentsMode: bool, defaultIds: Option<seq<string>>)

  /** One entry of the program's error list; the indices are those its text names. */
  datatype Problem =
    | ReservedId(at: nat) | MalformedId(at: nat) | DuplicateId(at: nat)
    | ReservedSink(at: nat) | UnsupportedSink(at: nat, sink: Sink) | SinkNeedsOutput(at: nat, sink: Sink)
    | ThreadNeedsOutput(at: nat)
    | UnknownDefault(at: nat) | NoDefault
    | RepeatedSelection(at: nat) | UnknownSelection(at: nat)
    | SharedAgent(prior: string, id: string)
    | SharedSink(prior: string, id: string, sink: Sink)
    | TwoThreads(prior: string, id: string)

  datatype Resolution =
    | Legacy
    | LegacyRefused
    | Selected(profiles: seq<Profile>, selected: seq<Profile>)
    | Refused(problems: seq<Problem>)

  // ---- One profile of the catalog -------------------------------------------------------

  predicate IsAlnum(c: char) {
    'A' <= c <= 'Z' || 'a' <= c <= 'z' || '0' <= c <= '9'
  }

  /** A letter or digit, then at most 63 letters, digits, dots, underscores or hyphens. */
  predicate MatchesIdPattern(id: string) {
    && 1 <= |id| <= 64
    && IsAlnum(id[0])
    && forall i | 1 <= i < |id| :: IsAlnum(id[i]) || id[i] == '.' || id[i] == '_' || id[i] == '-'
  }

  predicate IsReserved(id: string) {
    id == "__proto__" || id == "prototype" || id == "constructor"
  }

  function IdProblems(p: Profile, at: nat): seq<Problem> {
    if IsReserved(p.id) then [ReservedId(at)] else if !MatchesIdPattern(p.id) then [MalformedId(at)] else []
  }

  function SinkProblem(p: Profile, at: nat, sink: Sink): seq<Problem> {
    if sink == ListenerNotice then [ReservedSink(at)]
    else if sink.OtherSink? then [UnsupportedSink(at, sink)]
    else if MeetingOutput !in p.capabilities then [SinkNeedsOutput(at, sink)]
    else []
  }

  function SinkProblems(p: Profile, at: nat, count: nat): seq<Problem>
    requires count <= |p.ownedSinks|
  {
    if count == 0 then [] else SinkProblems(p, at, count - 1) + SinkProblem(p, at, p.ownedSinks[count - 1])
  }

  function ThreadProblems(p: Profile, at: nat): seq<Problem> {
    if p.listenerThread && ListenerOutput !in p.capabilities then [ThreadNeedsOutput(at)] else []
  }

  /** The first profile of each id among the first `count`. */
  function ById(profiles: seq<Profile>, count: nat): map<string, Profile>
    requires count <= |profiles|
  {
    if count == 0 then map[]
    else
      var before := ById(profiles, count - 1);
      var p := profiles[count - 1];
      if p.id in before then before else before[p.id := p]
  }

  function CatalogProblems(profiles: seq<Profile>, count: nat): seq<Problem>
    requires count <= |profiles|
  {
    if count == 0 then []
    else
      var at := count - 1;
      var p := profiles[at];
      CatalogProblems(profiles, at)
      + IdProblems(p, at)
      + (if p.id in ById(profiles, at) then [DuplicateId(at)] else [])
      + SinkProblems(p, at, |p.ownedSinks|)
      + ThreadProblems(p, at)
  }

  function DefaultProblems(ids: seq<string>, byId: map<string, Profile>, count: nat): seq<Problem>
    requires count <= |ids|
  {
    if count == 0 then []
    else DefaultProblems(ids, byId, count - 1) + if ids[count - 1] in byId then [] else [UnknownDefault(count - 1)]
  }

  // ---- The selection ------------------------------------------------------------------------

  datatype Selection = Selection(
    problems: seq<Problem>, profiles: seq<Profile>, seen: set<string>,
    byAgent: map<string, string>, bySink: map<Sink, string>, thread: Option<string>)

  const NOTHING := Selection([], [], {}, map[], map[], None)

  /** A JavaScript string counts as set unless it is empty. */
  predicate IsSet(prior: Option<string>) {
    prior.Some? && prior.value != ""
  }

  function Lookup<K>(m: map<K, string>, key: K): Option<string> {
    if key in m then Some(m[key]) else None
  }

  function ClaimAgent(s: Selection, p: Profile): Selection {
    var prior := Lookup(s.byAgent, p.agentAppId);
    if IsSet(prior) then s.(problems := s.problems + [SharedAgent(prior.value, p.id)])
    else s.(byAgent := s.byAgent[p.agentAppId := p.id])
  }

  function ClaimSink(s: Selection, p: Profile, sink: Sink): Selection {
    var prior := Lookup(s.bySink, sink);
    if IsSet(prior) then s.(problems := s.problems + [SharedSink(prior.value, p.id, sink)])
    else s.(bySink := s.bySink[sink := p.id])
  }

  function ClaimSinks(s: Selection, p: Profile, count: nat): Selection
    requires count <= |p.ownedSinks|
  {
    if count == 0 then s else ClaimSink(ClaimSinks(s, p, count - 1), p, p.ownedSinks[count - 1])
  }

  function ClaimThread(s: Selection, p: Profile): Selection {
    if !p.listenerThread then s
    else if IsSet(s.thread) then s.(problems := s.problems + [TwoThreads(s.thread.value, p.id)])
    else s.(thread := Some(p.id))
  }

  function Claim(s: Selection, p: Profile): Selection {
    ClaimThread(ClaimSinks(ClaimAgent(s, p), p, |p.ownedSinks|), p)
  }

  function SelectOne(s: Selection, byId: map<string, Profile>, id: string, at: nat): Selection {
    if id in s.seen then s.(problems := s.problems + [RepeatedSelection(at)])
    else
      var s1 := s.(seen := s.seen + {id});
      if id !in byId then s1.(problems := s1.problems + [UnknownSelection(at)])
      else Claim(s1.(profiles := s1.profiles + [byId[id]]), byId[id])
  }

  function Select(ids: seq<string>, byId: map<string, Profile>, problems: seq<Problem>, count: nat): Selection
    requires count <= |ids|
  {
    if count == 0 then NOTHING.(problems := problems)
    else SelectOne(Select(ids, byId, problems, count - 1), byId, ids[count - 1], count - 1)
  }

  function Defaults(config: Config): seq<string> {
    if config.defaultIds.Some? then config.defaultIds.value else []
  }

  function Chosen(config: Config, requested: Option<seq<string>>): seq<string> {
    if requested.Some? then requested.value else Defaults(config)
  }

  predicate LacksDefault(config: Config, requested: Option<seq<string>>) {
    requested.None? && config.agentsMode && Chosen(config, requested) == []
  }

  /** resolveVcMeetingConsumerProfiles */
  function Resolve(config: Config, requested: Option<seq<string>>): Resolution {
    if config.profiles.None? then
      if config.agentsMode || config.defaultIds.Some? then LegacyRefused else Legacy
    else
      var profiles := config.profiles.value;
      var byId := ById(profiles, |profiles|);
      var before := CatalogProblems(profiles, |profiles|)
                    + DefaultProblems(Defaults(config), byId, |Defaults(config)|)
                    + (if LacksDefault(config, requested) then [NoDefault] else []);
      var ids := Chosen(config, requested);
      var s := Select(ids, byId, before, |ids|);
      if s.problems != [] then Refused(s.problems) else Selected(profiles, s.profiles)
  }

  // ---- The program's loops --------------------------------------------------------------------

  method CheckSinks(p: Profile, at: nat) returns (problems: seq<Problem>)
    ensures problems == SinkProblems(p, at, |p.ownedSinks|)
  {
    problems := [];
    var k := 0;
    while k < |p.ownedSinks|
      invariant k <= |p.ownedSinks|
      invariant problems == SinkProblems(p, at, k)
    {
      problems := problems + SinkProblem(p, at, p.ownedSinks[k]);
      k := k + 1;
    }
  }

  method CheckCatalog(profiles: seq<Profile>) returns (byId: map<string, Profile>, problems: seq<Problem>)
    ensures problems == CatalogProblems(profiles, |profiles|)
    ensures byId == ById(profiles, |profiles|)
  {
    byId, problems := map[], [];
    var index := 0;
    while index < |profiles|
      invariant index <= |profiles|
      invariant byId == ById(profiles, index) && problems == CatalogProblems(profiles, index)
    {
      var p := profiles[index];
      problems := problems + IdProblems(p, index) + if p.id in byId then [DuplicateId(index)] else [];
      if p.id !in byId { byId := byId[p.id := p]; }
      var sinks := CheckSinks(p, index);
      problems := problems + sinks + ThreadProblems(p, index);
      index := index + 1;
    }
  }

  method CheckDefaults(ids: seq<string>, byId: map<string, Profile>) returns (problems: seq<Problem>)
    ensures problems == DefaultProblems(ids, byId, |ids|)
  {
    problems := [];
    var index := 0;
    while index < |ids|
      invariant index <= |ids| && problems == DefaultProblems(ids, byId, index)
    {
      if ids[index] !in byId { problems := problems + [UnknownDefault(index)]; }
      index := index + 1;
    }
  }

  method SelectProfiles(ids: seq<string>, byId: map<string, Profile>, before: seq<Problem>)
    returns (problems: seq<Problem>, selected: seq<Profile>)
    ensures problems == Select(ids, byId, before, |ids|).problems && selected == Select(ids, byId, before, |ids|).profiles
  {
    problems, selected := before, [];
    var seen: set<string>, byAgent: map<string, string>, bySink: map<Sink, string>, thread := {}, map[], map[], None;
    var index := 0;
    while index < |ids|
      invariant index <= |ids|
      invariant Selection(problems, selected, seen, byAgent, bySink, thread) == Select(ids, byId, before, index)
    {
      var id := ids[index];
      if id in seen {
        problems := problems + [RepeatedSelection(index)];
      } else {
        seen := seen + {id};
        if id !in byId {
          problems := problems + [UnknownSelection(index)];
        } else {
          var p := byId[id];
          selected := selected + [p];
          ghost var start := Selection(problems, selected, seen, byAgent, bySink, thread);
          if p.agentAppId in byAgent && byAgent[p.agentAppId] != "" {
            problems := problems + [SharedAgent(byAgent[p.agentAppId], p.id)];
          } else {
            byAgent := byAgent[p.agentAppId := p.id];
          }
          var k := 0;
          while k < |p.ownedSinks|
            invariant k <= |p.ownedSinks|
            invariant Selection(problems, selected, seen, byAgent, bySink, thread) == ClaimSinks(ClaimAgent(start, p), p, k)
          {
            var sink := p.ownedSinks[k];
            if sink in bySink && bySink[sink] != "" {
              problems := problems + [SharedSink(bySink[sink], p.id, sink)];
            } else {
              bySink := bySink[sink := p.id];
            }
            k := k + 1;
          }
          if p.listenerThread {
            if thread.Some? && thread.value != "" {
              problems := problems + [TwoThreads(thread.value, p.id)];
            } else {
              thread := Some(p.id);
            }
          }
        }
      }
      index := index + 1;
    }
  }

  method ResolveProfiles(config: Config, requested: Option<seq<string>>) returns (r: Resolution)
    ensures r == Resolve(config, requested)
    ensures (r.Legacy? || r.Selected?) <==> Acceptable(config, requested)
    ensures r.Selected? ==> InRequestedOrder(config, requested, r.selected)
  {
    ResolvesExactly(config, requested);
    if config.profiles.None? {
      return if config.agentsMode || config.defaultIds.Some? then LegacyRefused else Legacy;
    }
    var profiles := config.profiles.value;
    var byId, problems := CheckCatalog(profiles);
    var defaults := CheckDefaults(Defaults(config), byId);
    problems := problems + defaults;
    var ids := Chosen(config, requested);
    problems := problems + if requested.None? && config.agentsMode && |ids| == 0 then [NoDefault] else [];
    var selected: seq<Profile>;
    problems, selected := SelectProfiles(ids, byId, problems);
    return if |problems| > 0 then Refused(problems) else Selected(profiles, selected);
  }

  // ---- What an acceptable configuration is -------------------------------------------------------

  predicate ProfileOk(p: Profile) {
    && MatchesIdPattern(p.id) && !IsReserved(p.id)
    && (forall k | 0 <= k < |p.ownedSinks| :: p.ownedSinks[k] == MeetingText || p.ownedSinks[k] == MeetingVoice)
    && (p.ownedSinks != [] ==> MeetingOutput in p.capabilities)
    && (p.listenerThread ==> ListenerOutput in p.capabilities)
  }

  predicate CatalogOk(profiles: seq<Profile>) {
    && (forall i | 0 <= i < |profiles| :: ProfileOk(profiles[i]))
    && (forall i, j | 0 <= i < j < |profiles| :: profiles[i].id != profiles[j].id)
  }

  predicate Exists(profiles: seq<Profile>, id: string) {
    exists i | 0 <= i < |profiles| :: profiles[i].id == id
  }

  /** The profile of an id: the first with it, which is the only one in a sound catalog. */
  function ProfileOf(profiles: seq<Profile>, id: string): Profile
    requires Exists(profiles, id)
    decreases |profiles|
  {
    if profiles[0].id == id then profiles[0]
    else
      assert forall i | 0 <= i < |profiles[1..]| :: profiles[1..][i] == profiles[i + 1];
      assert Exists(profiles[1..], id) by {
        var i :| 0 <= i < |profiles| && profiles[i].id == id;
        assert profiles[1..][i - 1].id == id;
      }
      ProfileOf(profiles[1..], id)
  }

  predicate AllExist(profiles: seq<Profile>, ids: seq<string>) {
    forall k | 0 <= k < |ids| :: Exists(profiles, ids[k])
  }

  /** Every owned sink of the selection, profile by profile. */
  function SinksOf(chosen: seq<Profile>): seq<Sink> {
    if chosen == [] then [] else SinksOf(chosen[..|chosen| - 1]) + chosen[|chosen| - 1].ownedSinks
  }

  predicate Distinct<T(==)>(s: seq<T>) {
    forall i, j | 0 <= i < j < |s| :: s[i] != s[j]
  }

  /** No two selected profiles share an agent, a sink or the listener thread. */
  predicate Compatible(chosen: seq<Profile>) {
    && (forall i, j | 0 <= i < j < |chosen| :: chosen[i].agentAppId != chosen[j].agentAppId)
    && Distinct(SinksOf(chosen))
    && (forall i, j | 0 <= i < j < |chosen| :: !(chosen[i].listenerThread && chosen[j].listenerThread))
  }

  function ProfilesOf(profiles: seq<Profile>, ids: seq<string>): seq<Profile>
    requires AllExist(profiles, ids)
  {
    seq(|ids|, k requires 0 <= k < |ids| => ProfileOf(profiles, ids[k]))
  }

  predicate Acceptable(config: Config, requested: Option<seq<string>>) {
    if config.profiles.None? then !config.agentsMode && config.defaultIds.None?
    else
      var profiles := config.profiles.value;
      var ids := Chosen(config, requested);
      && CatalogOk(profiles)
      && AllExist(profiles, Defaults(config))
      && !LacksDefault(config, requested)
      && Distinct(ids) && AllExist(profiles, ids) && Compatible(ProfilesOf(profiles, ids))
  }

  predicate InRequestedOrder(config: Config, requested: Option<seq<string>>, selected: seq<Profile>) {
    && config.profiles.Some?
    && AllExist(config.profiles.value, Chosen(config, requested))
    && selected == ProfilesOf(config.profiles.value, Chosen(config, requested))
  }

  // ---- Sound and complete ---------------------------------------------------------------------------

  /** No earlier profile has the same id. */
  predicate IsFirst(profiles: seq<Profile>, i: nat)
    requires i < |profiles|
  {
    forall k | 0 <= k < i :: profiles[k].id != profiles[i].id
  }

  lemma {:induction false} ByIdIsFirst(profiles: seq<Profile>, count: nat)
    requires count <= |profiles|
    ensures forall id :: id in ById(profiles, count) <==> exists i | 0 <= i < count :: profiles[i].id == id
    ensures forall id | id in ById(profiles, count) ::
              ById(profiles, count)[id].id == id && ById(profiles, count)[id] in profiles[..count]
  {
    if count > 0 {
      ByIdIsFirst(profiles, count - 1);
      assert profiles[..count] == profiles[..count - 1] + [profiles[count - 1]];
    }
  }

  /** Of several profiles with one id the first is the one looked up. */
  lemma {:induction false} FirstIsLookedUp(profiles: seq<Profile>, count: nat, i: nat)
    requires i < count <= |profiles| && IsFirst(profiles, i)
    ensures profiles[i].id in ById(profiles, count) && ById(profiles, count)[profiles[i].id] == profiles[i]
    decreases count
  {
    if i == count - 1 { ByIdIsFirst(profiles, i); } else { FirstIsLookedUp(profiles, count - 1, i); }
  }

  lemma {:induction false} ProfileOfIs(profiles: seq<Profile>, id: string)
    requires Exists(profiles, id)
    ensures ProfileOf(profiles, id).id == id && ProfileOf(profiles, id) in profiles
    decreases |profiles|
  {
    if profiles[0].id != id {
      var i :| 0 <= i < |profiles| && profiles[i].id == id;
      assert profiles[1..][i - 1].id == id;
      ProfileOfIs(profiles[1..], id);
    }
  }

  /** In a sound catalog the lookup table finds the profile of an id. */
  lemma ByIdFinds(profiles: seq<Profile>, id: string)
    requires CatalogOk(profiles) && Exists(profiles, id)
    ensures id in ById(profiles, |profiles|) && ById(profiles, |profiles|)[id] == ProfileOf(profiles, id)
  {
    ByIdIsFirst(profiles, |profiles|);
    ProfileOfIs(profiles, id);
    assert profiles[..|profiles|] == profiles;
    var p, q := ById(profiles, |profiles|)[id], ProfileOf(profiles, id);
    var i :| 0 <= i < |profiles| && profiles[i] == p;
    var j :| 0 <= j < |profiles| && profiles[j] == q;
  }

  lemma {:induction false} NoSinkProblems(p: Profile, at: nat, count: nat)
    requires count <= |p.ownedSinks|
    ensures SinkProblems(p, at, count) == []
       <==> forall k | 0 <= k < count ::
              (p.ownedSinks[k] == MeetingText || p.ownedSinks[k] == MeetingVoice) && MeetingOutput in p.capabilities
  {
    if count > 0 { NoSinkProblems(p, at, count - 1); }
  }

  lemma NoProfileProblems(p: Profile, at: nat)
    ensures IdProblems(p, at) + SinkProblems(p, at, |p.ownedSinks|) + ThreadProblems(p, at) == [] <==> ProfileOk(p)
  {
    NoSinkProblems(p, at, |p.ownedSinks|);
  }

  lemma {:induction false} NoCatalogProblems(profiles: seq<Profile>, count: nat)
    requires count <= |profiles|
    ensures CatalogProblems(profiles, count) == [] <==> CatalogOk(profiles[..count])
  {
    if count > 0 {
      var at := count - 1;
      NoCatalogProblems(profiles, at);
      NoProfileProblems(profiles[at], at);
      ByIdIsFirst(profiles, at);
      CatalogExtends(profiles, at);
    }
  }

  lemma CatalogExtends(profiles: seq<Profile>, at: nat)
    requires at < |profiles|
    ensures CatalogOk(profiles[..at + 1])
       <==> CatalogOk(profiles[..at]) && ProfileOk(profiles[at]) && forall i | 0 <= i < at :: profiles[i].id != profiles[at].id
  {
    assert forall i | 0 <= i < at :: profiles[..at + 1][i] == profiles[i] == profiles[..at][i];
    assert profiles[..at + 1][at] == profiles[at];
  }

  lemma {:induction false} NoDefaultProblems(ids: seq<string>, byId: map<string, Profile>, count: nat)
    requires count <= |ids|
    ensures DefaultProblems(ids, byId, count) == [] <==> forall k | 0 <= k < count :: ids[k] in byId
  {
    if count > 0 { NoDefaultProblems(ids, byId, count - 1); }
  }

  // The selection, while it is free of problems, holds exactly what its profiles claim.

  ghost predicate Tracks(s: Selection, chosen: seq<Profile>, ids: seq<string>) {
    && s.profiles == chosen
    && (forall id :: id in s.seen <==> id in ids)
    && (forall a :: a in s.byAgent <==> exists i | 0 <= i < |chosen| :: chosen[i].agentAppId == a)
    && (forall sink :: sink in s.bySink <==> sink in SinksOf(chosen))
    && (s.thread.Some? <==> exists i | 0 <= i < |chosen| :: chosen[i].listenerThread)
    && (forall a | a in s.byAgent :: s.byAgent[a] != "")
    && (forall sink | sink in s.bySink :: s.bySink[sink] != "")
    && (s.thread.Some? ==> s.thread.value != "")
  }

  lemma ProblemsOnlyGrow(s: Selection, byId: map<string, Profile>, id: string, at: nat)
    ensures s.problems <= SelectOne(s, byId, id, at).problems
  {
    if id in byId {
      var s1 := s.(seen := s.seen + {id}, profiles := s.profiles + [byId[id]]);
      ClaimSinksOnlyAdds(ClaimAgent(s1, byId[id]), byId[id], |byId[id].ownedSinks|);
    }
  }

  lemma {:induction false} ClaimSinksOnlyAdds(s: Selection, p: Profile, count: nat)
    requires count <= |p.ownedSinks|
    ensures var s' := ClaimSinks(s, p, count);
            s.problems <= s'.problems && s' == s.(problems := s'.problems, bySink := s'.bySink)
  {
    if count > 0 { ClaimSinksOnlyAdds(s, p, count - 1); }
  }

  /** Claiming sinks adds no problem exactly when none is claimed already or listed twice. */
  lemma {:induction false} ClaimSinksExactly(s: Selection, p: Profile, count: nat)
    requires count <= |p.ownedSinks| && p.id != "" && forall sink | sink in s.bySink :: s.bySink[sink] != ""
    ensures var s' := ClaimSinks(s, p, count);
            && (s'.problems == s.problems
                <==> Distinct(p.ownedSinks[..count]) && forall k | 0 <= k < count :: p.ownedSinks[k] !in s.bySink)
            && (forall sink :: sink in s'.bySink <==> sink in s.bySink || sink in p.ownedSinks[..count])
            && (forall sink | sink in s'.bySink :: s'.bySink[sink] != "")
  {
    if count > 0 {
      var last := count - 1;
      ClaimSinksExactly(s, p, last);
      ClaimSinksOnlyAdds(s, p, last);
      assert p.ownedSinks[..count] == p.ownedSinks[..last] + [p.ownedSinks[last]];
      DistinctExtends(p.ownedSinks[..last], p.ownedSinks[last]);
    }
  }

  lemma DistinctExtends<T>(s: seq<T>, x: T)
    ensures Distinct(s + [x]) <==> Distinct(s) && x !in s
  {
    if x in s {
      var i :| 0 <= i < |s| && s[i] == x;
      assert (s + [x])[i] == (s + [x])[|s|];
    }
    if Distinct(s + [x]) {
      forall i, j | 0 <= i < j < |s| ensures s[i] != s[j] {
        assert (s + [x])[i] == s[i] && (s + [x])[j] == s[j];
      }
      assert Distinct(s);
    }
  }

  lemma DistinctJoin(s: seq<Sink>, t: seq<Sink>)
    ensures Distinct(s + t) <==> Distinct(s) && Distinct(t) && forall k | 0 <= k < |t| :: t[k] !in s
  {
    if Distinct(s + t) {
      assert forall i | 0 <= i < |s| :: (s + t)[i] == s[i];
      assert forall k | 0 <= k < |t| :: (s + t)[|s| + k] == t[k];
      forall i, j | 0 <= i < j < |t| ensures t[i] != t[j] {
        assert (s + t)[|s| + i] != (s + t)[|s| + j];
      }
    }
  }

  /** One more profile is compatible exactly when it shares nothing with the earlier ones. */
  lemma CompatibleExtends(chosen: seq<Profile>, p: Profile)
    ensures Compatible(chosen + [p])
       <==> && Compatible(chosen)
            && (forall i | 0 <= i < |chosen| :: chosen[i].agentAppId != p.agentAppId)
            && Distinct(p.ownedSinks) && (forall k | 0 <= k < |p.ownedSinks| :: p.ownedSinks[k] !in SinksOf(chosen))
            && !(p.listenerThread && exists i | 0 <= i < |chosen| :: chosen[i].listenerThread)
  {
    var all := chosen + [p];
    assert all[..|chosen|] == chosen;
    assert SinksOf(all) == SinksOf(chosen) + p.ownedSinks;
    DistinctJoin(SinksOf(chosen), p.ownedSinks);
    assert forall i | 0 <= i < |chosen| :: all[i] == chosen[i];
    assert all[|chosen|] == p;
  }

  lemma ClaimExactly(s: Selection, chosen: seq<Profile>, ids: seq<string>, p: Profile)
    requires Tracks(s, chosen, ids) && Compatible(chosen) && p.id != ""
    ensures var s' := Claim(s.(profiles := chosen + [p]), p);
            && (s'.problems == s.problems <==> Compatible(chosen + [p]))
            && s.problems <= s'.problems
            && s'.seen == s.seen
            && (s'.problems == s.problems ==> Tracks(s', chosen + [p], ids))
  {
    var s1 := ClaimAgent(s.(profiles := chosen + [p]), p);
    ClaimSinksExactly(s1, p, |p.ownedSinks|);
    ClaimSinksOnlyAdds(s1, p, |p.ownedSinks|);
    assert p.ownedSinks[..|p.ownedSinks|] == p.ownedSinks;
    CompatibleExtends(chosen, p);
    ClaimTracks(s, s1, chosen, ids, p);
  }

  lemma AgentTracks(s: Selection, chosen: seq<Profile>, p: Profile)
    requires forall a :: a in s.byAgent <==> exists i | 0 <= i < |chosen| :: chosen[i].agentAppId == a
    requires forall a | a in s.byAgent :: s.byAgent[a] != ""
    requires p.id != "" && ClaimAgent(s, p).problems == s.problems
    ensures var byAgent := ClaimAgent(s, p).byAgent;
            && (forall a :: a in byAgent <==> exists i | 0 <= i < |chosen + [p]| :: (chosen + [p])[i].agentAppId == a)
            && (forall a | a in byAgent :: byAgent[a] != "")
  {
    assert (chosen + [p])[|chosen|] == p && forall i | 0 <= i < |chosen| :: (chosen + [p])[i] == chosen[i];
  }

  lemma ThreadTracks(s: Selection, chosen: seq<Profile>, p: Profile)
    requires s.thread.Some? <==> exists i | 0 <= i < |chosen| :: chosen[i].listenerThread
    requires s.thread.Some? ==> s.thread.value != ""
    requires p.id != "" && ClaimThread(s, p).problems == s.problems
    ensures var thread := ClaimThread(s, p).thread;
            && (thread.Some? <==> exists i | 0 <= i < |chosen + [p]| :: (chosen + [p])[i].listenerThread)
            && (thread.Some? ==> thread.value != "")
  {
    assert (chosen + [p])[|chosen|] == p && forall i | 0 <= i < |chosen| :: (chosen + [p])[i] == chosen[i];
  }

  lemma SinksTrack(s: Selection, chosen: seq<Profile>, p: Profile)
    requires forall sink :: sink in s.bySink <==> sink in SinksOf(chosen)
    requires p.id != "" && forall sink | sink in s.bySink :: s.bySink[sink] != ""
    ensures var bySink := ClaimSinks(s, p, |p.ownedSinks|).bySink;
            && (forall sink :: sink in bySink <==> sink in SinksOf(chosen + [p]))
            && (forall sink | sink in bySink :: bySink[sink] != "")
  {
    ClaimSinksExactly(s, p, |p.ownedSinks|);
    assert p.ownedSinks[..|p.ownedSinks|] == p.ownedSinks;
    assert (chosen + [p])[..|chosen|] == chosen;
    assert SinksOf(chosen + [p]) == SinksOf(chosen) + p.ownedSinks;
  }

  lemma ClaimTracks(s: Selection, s1: Selection, chosen: seq<Profile>, ids: seq<string>, p: Profile)
    requires Tracks(s, chosen, ids) && p.id != "" && s1 == ClaimAgent(s.(profiles := chosen + [p]), p)
    ensures var s' := Claim(s.(profiles := chosen + [p]), p);
            s'.problems == s.problems ==> Tracks(s', chosen + [p], ids)
  {
    var s2 := ClaimSinks(s1, p, |p.ownedSinks|);
    ClaimSinksOnlyAdds(s1, p, |p.ownedSinks|);
    if ClaimThread(s2, p).problems == s.problems {
      AgentTracks(s.(profiles := chosen + [p]), chosen, p);
      SinksTrack(s1, chosen, p);
      ThreadTracks(s2, chosen, p);
    }
  }

  /** The selection loop is free of problems exactly when the selection is acceptable. */
  lemma {:induction false} SelectExactly(profiles: seq<Profile>, ids: seq<string>, count: nat)
    requires CatalogOk(profiles) && count <= |ids|
    ensures var s := Select(ids, ById(profiles, |profiles|), [], count);
            var taken := ids[..count];
            && (s.problems == [] <==> Distinct(taken) && AllExist(profiles, taken) && Compatible(ProfilesOf(profiles, taken)))
            && (s.problems == [] ==> Tracks(s, ProfilesOf(profiles, taken), taken))
  {
    var byId := ById(profiles, |profiles|);
    if count > 0 {
      var last := count - 1;
      SelectExactly(profiles, ids, last);
      var s, id, taken := Select(ids, byId, [], last), ids[last], ids[..last];
      assert ids[..count] == taken + [id];
      SelectStep(profiles, s, taken, id, last);
    }
  }

  lemma SelectStep(profiles: seq<Profile>, s: Selection, taken: seq<string>, id: string, at: nat)
    requires CatalogOk(profiles)
    requires s.problems == [] <==> Distinct(taken) && AllExist(profiles, taken) && Compatible(ProfilesOf(profiles, taken))
    requires s.problems == [] ==> Tracks(s, ProfilesOf(profiles, taken), taken)
    ensures var s' := SelectOne(s, ById(profiles, |profiles|), id, at);
            var more := taken + [id];
            && (s'.problems == [] <==> Distinct(more) && AllExist(profiles, more) && Compatible(ProfilesOf(profiles, more)))
            && (s'.problems == [] ==> Tracks(s', ProfilesOf(profiles, more), more))
  {
    var byId := ById(profiles, |profiles|);
    ProblemsOnlyGrow(s, byId, id, at);
    DistinctExtends(taken, id);
    ExistExtends(profiles, taken, id);
    if s.problems == [] {
      if id !in taken { AddOne(profiles, s, taken, id, at); }
    } else if AllExist(profiles, taken + [id]) {
      ChosenExtends(profiles, taken, id);
      CompatibleExtends(ProfilesOf(profiles, taken), ProfileOf(profiles, id));
    }
  }

  lemma ExistExtends(profiles: seq<Profile>, taken: seq<string>, id: string)
    ensures AllExist(profiles, taken + [id]) <==> AllExist(profiles, taken) && Exists(profiles, id)
  {
    if AllExist(profiles, taken + [id]) {
      assert (taken + [id])[|taken|] == id;
      assert forall k | 0 <= k < |taken| :: (taken + [id])[k] == taken[k];
    }
  }

  lemma ChosenExtends(profiles: seq<Profile>, taken: seq<string>, id: string)
    requires AllExist(profiles, taken + [id]) && AllExist(profiles, taken) && Exists(profiles, id)
    ensures ProfilesOf(profiles, taken + [id]) == ProfilesOf(profiles, taken) + [ProfileOf(profiles, id)]
  {}

  lemma AddOne(profiles: seq<Profile>, s: Selection, taken: seq<string>, id: string, at: nat)
    requires CatalogOk(profiles) && id !in taken && s.problems == [] && Distinct(taken) && AllExist(profiles, taken)
    requires Tracks(s, ProfilesOf(profiles, taken), taken) && Compatible(ProfilesOf(profiles, taken))
    ensures var s' := SelectOne(s, ById(profiles, |profiles|), id, at);
            var more := taken + [id];
            && (s'.problems == [] <==> AllExist(profiles, more) && Compatible(ProfilesOf(profiles, more)))
            && (s'.problems == [] ==> Tracks(s', ProfilesOf(profiles, more), more))
  {
    var byId := ById(profiles, |profiles|);
    ByIdIsFirst(profiles, |profiles|);
    ExistExtends(profiles, taken, id);
    if Exists(profiles, id) {
      ByIdFinds(profiles, id);
      ProfileOfIs(profiles, id);
      ChosenExtends(profiles, taken, id);
      var s1 := s.(seen := s.seen + {id});
      assert Tracks(s1, ProfilesOf(profiles, taken), taken + [id]);
      ClaimExactly(s1, ProfilesOf(profiles, taken), taken + [id], ProfileOf(profiles, id));
    }
  }

  /** The problems found before the selection are kept in front of its own. */
  lemma {:induction false} SelectAfter(ids: seq<string>, byId: map<string, Profile>, before: seq<Problem>, count: nat)
    requires count <= |ids| && before != []
    ensures Select(ids, byId, before, count).problems != []
  {
    if count > 0 {
      SelectAfter(ids, byId, before, count - 1);
      ProblemsOnlyGrow(Select(ids, byId, before, count - 1), byId, ids[count - 1], count - 1);
    }
  }

  /** Resolution succeeds exactly on acceptable configurations and selections, and then lists
      the selected profiles in the order requested. */
  lemma ResolvesExactly(config: Config, requested: Option<seq<string>>)
    ensures var r := Resolve(config, requested);
            && ((r.Legacy? || r.Selected?) <==> Acceptable(config, requested))
            && (r.Selected? ==> InRequestedOrder(config, requested, r.selected))
            && (r.Refused? ==> r.problems != [])
  {
    if config.profiles.Some? {
      var profiles := config.profiles.value;
      var byId := ById(profiles, |profiles|);
      var ids := Chosen(config, requested);
      NoCatalogProblems(profiles, |profiles|);
      assert profiles[..|profiles|] == profiles;
      ByIdIsFirst(profiles, |profiles|);
      NoDefaultProblems(Defaults(config), byId, |Defaults(config)|);
      var before := CatalogProblems(profiles, |profiles|)
                    + DefaultProblems(Defaults(config), byId, |Defaults(config)|)
                    + (if LacksDefault(config, requested) then [NoDefault] else []);
      if before != [] {
        SelectAfter(ids, byId, before, |ids|);
      } else {
        SelectExactly(profiles, ids, |ids|);
        assert ids[..|ids|] == ids;
      }
    }
  }

  // ---- Every reported problem is a real one -----------------------------------------------------------

  /** What a resolution was given. */
  datatype Given = Given(profiles: seq<Profile>, defaults: seq<string>, ids: seq<string>, lacksDefault: bool)

  /** What a reported problem says of the catalog, the defaults and the selection. */
  ghost predicate Real(g: Given, q: Problem) {
    var byId := ById(g.profiles, |g.profiles|);
    match q
    case ReservedId(at) => at < |g.profiles| && IsReserved(g.profiles[at].id)
    case MalformedId(at) => at < |g.profiles| && !MatchesIdPattern(g.profiles[at].id)
    case DuplicateId(at) => at < |g.profiles| && exists i | 0 <= i < at :: g.profiles[i].id == g.profiles[at].id
    case ReservedSink(at) => at < |g.profiles| && ListenerNotice in g.profiles[at].ownedSinks
    case UnsupportedSink(at, sink) => at < |g.profiles| && sink.OtherSink? && sink in g.profiles[at].ownedSinks
    case SinkNeedsOutput(at, sink) =>
      at < |g.profiles| && sink in g.profiles[at].ownedSinks && MeetingOutput !in g.profiles[at].capabilities
    case ThreadNeedsOutput(at) =>
      at < |g.profiles| && g.profiles[at].listenerThread && ListenerOutput !in g.profiles[at].capabilities
    case UnknownDefault(at) => at < |g.defaults| && !Exists(g.profiles, g.defaults[at])
    case NoDefault => g.lacksDefault
    case RepeatedSelection(at) => at < |g.ids| && g.ids[at] in g.ids[..at]
    case UnknownSelection(at) => at < |g.ids| && !Exists(g.profiles, g.ids[at])
    case SharedAgent(prior, id) =>
      BothSelected(byId, g.ids, prior, id) && prior != id && byId[prior].agentAppId == byId[id].agentAppId
    case SharedSink(prior, id, sink) =>
      && BothSelected(byId, g.ids, prior, id)
      && sink in byId[prior].ownedSinks && sink in byId[id].ownedSinks
      && (prior == id ==> !Distinct(byId[id].ownedSinks))
    case TwoThreads(prior, id) =>
      BothSelected(byId, g.ids, prior, id) && prior != id && byId[prior].listenerThread && byId[id].listenerThread
  }

  predicate BothSelected(byId: map<string, Profile>, ids: seq<string>, prior: string, id: string) {
    prior in ids && id in ids && prior in byId && id in byId
  }

  ghost predicate AllReal(g: Given, problems: seq<Problem>) {
    forall q | q in problems :: Real(g, q)
  }

  lemma {:induction false} SinkProblemsReal(g: Given, at: nat, count: nat)
    requires at < |g.profiles| && count <= |g.profiles[at].ownedSinks|
    ensures AllReal(g, SinkProblems(g.profiles[at], at, count))
  {
    if count > 0 {
      SinkProblemsReal(g, at, count - 1);
      assert g.profiles[at].ownedSinks[count - 1] in g.profiles[at].ownedSinks;
    }
  }

  lemma {:induction false} ProfileProblemsReal(g: Given, at: nat)
    requires at < |g.profiles|
    ensures AllReal(g, IdProblems(g.profiles[at], at))
    ensures AllReal(g, ThreadProblems(g.profiles[at], at))
    ensures g.profiles[at].id in ById(g.profiles, at) ==> Real(g, DuplicateId(at))
  {
    ByIdIsFirst(g.profiles, at);
  }

  lemma {:induction false} CatalogProblemsReal(g: Given, count: nat)
    requires count <= |g.profiles|
    ensures AllReal(g, CatalogProblems(g.profiles, count))
  {
    hide Real, IdProblems, ThreadProblems, SinkProblems;
    if count > 0 {
      var at := count - 1;
      CatalogProblemsReal(g, at);
      SinkProblemsReal(g, at, |g.profiles[at].ownedSinks|);
      ProfileProblemsReal(g, at);
    }
  }

  lemma {:induction false} DefaultProblemsReal(g: Given, count: nat)
    requires count <= |g.defaults|
    ensures AllReal(g, DefaultProblems(g.defaults, ById(g.profiles, |g.profiles|), count))
  {
    if count > 0 {
      DefaultProblemsReal(g, count - 1);
      ByIdIsFirst(g.profiles, |g.profiles|);
    }
  }

  /** Each claim is held by a selected profile that makes it. */
  predicate Held(s: Selection, byId: map<string, Profile>) {
    && (forall a | a in s.byAgent :: s.byAgent[a] in s.seen && s.byAgent[a] in byId && byId[s.byAgent[a]].agentAppId == a)
    && (forall sink | sink in s.bySink ::
          s.bySink[sink] in s.seen && s.bySink[sink] in byId && sink in byId[s.bySink[sink]].ownedSinks)
    && (s.thread.Some? ==> s.thread.value in s.seen && s.thread.value in byId && byId[s.thread.value].listenerThread)
  }

  /** The selection being filled in with `p`, every problem so far a real one. */
  ghost predicate Filling(s: Selection, p: Profile, g: Given) {
    var byId := ById(g.profiles, |g.profiles|);
    && Held(s, byId)
    && p.id in byId && byId[p.id] == p && p.id in s.seen && p.id in g.ids
    && (forall id | id in s.seen :: id in g.ids)
    && AllReal(g, s.problems)
  }

  lemma {:induction false} ClaimAgentFills(s: Selection, p: Profile, g: Given)
    requires Filling(s, p, g)
    requires forall a | a in s.byAgent :: s.byAgent[a] != p.id
    ensures Filling(ClaimAgent(s, p), p, g)
    ensures ClaimAgent(s, p).bySink == s.bySink && ClaimAgent(s, p).thread == s.thread
  {}

  lemma {:induction false} ClaimThreadFills(s: Selection, p: Profile, g: Given)
    requires Filling(s, p, g) && s.thread != Some(p.id)
    ensures Filling(ClaimThread(s, p), p, g)
  {}

  lemma {:induction false} ClaimSinkFills(s: Selection, p: Profile, sink: Sink, g: Given)
    requires Filling(s, p, g) && sink in p.ownedSinks
    requires sink in s.bySink && s.bySink[sink] == p.id ==> !Distinct(p.ownedSinks)
    ensures Filling(ClaimSink(s, p, sink), p, g)
  {}

  /** A sink that one profile claims twice is listed twice. */
  lemma {:induction false} ClaimSinksFill(s: Selection, p: Profile, count: nat, g: Given)
    requires count <= |p.ownedSinks| && Filling(s, p, g)
    requires forall sink | sink in s.bySink :: s.bySink[sink] != p.id
    ensures var s' := ClaimSinks(s, p, count);
            && Filling(s', p, g) && s'.thread == s.thread
            && (forall sink | sink in s'.bySink && s'.bySink[sink] == p.id :: sink in p.ownedSinks[..count])
  {
    hide Filling;
    if count > 0 {
      var last := count - 1;
      ClaimSinksFill(s, p, last, g);
      var s1, sink := ClaimSinks(s, p, last), p.ownedSinks[last];
      assert p.ownedSinks[..count] == p.ownedSinks[..last] + [sink];
      if sink in s1.bySink && s1.bySink[sink] == p.id { RepeatedIsNotDistinct(p.ownedSinks, last); }
      ClaimSinkFills(s1, p, sink, g);
    }
  }

  lemma RepeatedIsNotDistinct(sinks: seq<Sink>, last: nat)
    requires last < |sinks| && sinks[last] in sinks[..last]
    ensures !Distinct(sinks)
  {
    var i :| 0 <= i < last && sinks[..last][i] == sinks[last];
    assert sinks[i] == sinks[last];
  }

  lemma {:induction false} RefusedSelectionReal(g: Given, at: nat)
    requires at < |g.ids|
    ensures g.ids[at] in g.ids[..at] ==> Real(g, RepeatedSelection(at))
    ensures g.ids[at] !in ById(g.profiles, |g.profiles|) ==> Real(g, UnknownSelection(at))
  {
    ByIdIsFirst(g.profiles, |g.profiles|);
  }

  lemma {:induction false} BeginsFilling(s: Selection, g: Given, at: nat)
    requires at < |g.ids| && Held(s, ById(g.profiles, |g.profiles|)) && forall id :: id in s.seen <==> id in g.ids[..at]
    requires AllReal(g, s.problems)
    requires g.ids[at] !in s.seen && g.ids[at] in ById(g.profiles, |g.profiles|)
    ensures var p := ById(g.profiles, |g.profiles|)[g.ids[at]];
            var s1 := s.(seen := s.seen + {g.ids[at]}, profiles := s.profiles + [p]);
            && p.id == g.ids[at]
            && Filling(s1, p, g)
            && (forall a | a in s1.byAgent :: s1.byAgent[a] != p.id)
            && (forall sink | sink in s1.bySink :: s1.bySink[sink] != p.id)
            && s1.thread != Some(p.id)
  {
    ByIdIsFirst(g.profiles, |g.profiles|);
  }

  lemma {:induction false} SelectOneReal(s: Selection, g: Given, at: nat)
    requires at < |g.ids| && Held(s, ById(g.profiles, |g.profiles|)) && forall id :: id in s.seen <==> id in g.ids[..at]
    requires AllReal(g, s.problems)
    ensures var byId := ById(g.profiles, |g.profiles|);
            var s' := SelectOne(s, byId, g.ids[at], at);
            && Held(s', byId) && (forall id :: id in s'.seen <==> id in g.ids[..at + 1])
            && AllReal(g, s'.problems)
  {
    hide Real, ById, ClaimAgent, ClaimSinks, ClaimThread;
    var byId := ById(g.profiles, |g.profiles|);
    var id := g.ids[at];
    assert g.ids[..at + 1] == g.ids[..at] + [id];
    RefusedSelectionReal(g, at);
    if id !in s.seen && id in byId {
      var p := byId[id];
      var s1 := s.(seen := s.seen + {id}, profiles := s.profiles + [p]);
      BeginsFilling(s, g, at);
      ClaimFills(s1, p, g);
      ClaimKeepsSeen(s1, p);
    }
  }

  lemma ClaimKeepsSeen(s: Selection, p: Profile)
    ensures Claim(s, p).seen == s.seen
  {
    ClaimSinksOnlyAdds(ClaimAgent(s, p), p, |p.ownedSinks|);
  }

  lemma {:induction false} ClaimFills(s: Selection, p: Profile, g: Given)
    requires Filling(s, p, g)
    requires forall a | a in s.byAgent :: s.byAgent[a] != p.id
    requires forall sink | sink in s.bySink :: s.bySink[sink] != p.id
    requires s.thread != Some(p.id)
    ensures Filling(Claim(s, p), p, g)
  {
    hide Filling;
    var s1 := ClaimAgent(s, p);
    ClaimAgentFills(s, p, g);
    ClaimSinksFill(s1, p, |p.ownedSinks|, g);
    ClaimThreadFills(ClaimSinks(s1, p, |p.ownedSinks|), p, g);
  }

  lemma {:induction false} SelectReal(g: Given, before: seq<Problem>, count: nat)
    requires count <= |g.ids| && AllReal(g, before)
    ensures var s := Select(g.ids, ById(g.profiles, |g.profiles|), before, count);
            && Held(s, ById(g.profiles, |g.profiles|)) && (forall id :: id in s.seen <==> id in g.ids[..count])
            && AllReal(g, s.problems)
  {
    hide AllReal;
    if count > 0 {
      SelectReal(g, before, count - 1);
      SelectOneReal(Select(g.ids, ById(g.profiles, |g.profiles|), before, count - 1), g, count - 1);
    }
  }

  lemma NoDefaultIsReal(g: Given)
    ensures g.lacksDefault ==> Real(g, NoDefault)
  {}

  /** A refusal names real problems only: every entry of the error list holds of the
      configuration and the selection it was given. */
  lemma EveryProblemIsReal(config: Config, requested: Option<seq<string>>, q: Problem)
    requires Resolve(config, requested).Refused? && q in Resolve(config, requested).problems
    ensures config.profiles.Some?
    ensures Real(Given(config.profiles.value, Defaults(config), Chosen(config, requested), LacksDefault(config, requested)), q)
  {
    var profiles := config.profiles.value;
    hide Real, CatalogProblems, DefaultProblems, Select, ById;
    var defaults, ids, lacks := Defaults(config), Chosen(config, requested), LacksDefault(config, requested);
    var g := Given(profiles, defaults, ids, lacks);
    NoDefaultIsReal(g);
    CatalogProblemsReal(g, |profiles|);
    DefaultProblemsReal(g, |defaults|);
    SelectReal(g,
               CatalogProblems(profiles, |profiles|)
               + DefaultProblems(defaults, ById(profiles, |profiles|), |defaults|)
               + (if lacks then [NoDefault] else []), |ids|);
  }

  // ---- Every real problem is reported --------------------------------------------------------------------

  /** What the error list owes of the catalog, the defaults and the repeated or unknown selections. An id
      is at most reserved or malformed, a sink has one defect, and a repeated selection is no other. */
  ghost predicate Owed(g: Given, q: Problem) {
    match q
    case ReservedId(at) => at < |g.profiles| && IsReserved(g.profiles[at].id)
    case MalformedId(at) => at < |g.profiles| && !IsReserved(g.profiles[at].id) && !MatchesIdPattern(g.profiles[at].id)
    case DuplicateId(at) => at < |g.profiles| && exists i | 0 <= i < at :: g.profiles[i].id == g.profiles[at].id
    case ReservedSink(at) => at < |g.profiles| && ListenerNotice in g.profiles[at].ownedSinks
    case UnsupportedSink(at, sink) => at < |g.profiles| && sink.OtherSink? && sink in g.profiles[at].ownedSinks
    case SinkNeedsOutput(at, sink) =>
      && at < |g.profiles| && (sink == MeetingText || sink == MeetingVoice) && sink in g.profiles[at].ownedSinks
      && MeetingOutput !in g.profiles[at].capabilities
    case ThreadNeedsOutput(at) =>
      at < |g.profiles| && g.profiles[at].listenerThread && ListenerOutput !in g.profiles[at].capabilities
    case UnknownDefault(at) => at < |g.defaults| && !Exists(g.profiles, g.defaults[at])
    case NoDefault => g.lacksDefault
    case RepeatedSelection(at) => at < |g.ids| && g.ids[at] in g.ids[..at]
    case UnknownSelection(at) => at < |g.ids| && g.ids[at] !in g.ids[..at] && !Exists(g.profiles, g.ids[at])
    case _ => false
  }

  predicate OfCatalog(q: Problem, at: nat) {
    match q
    case ReservedId(a) => a == at
    case MalformedId(a) => a == at
    case DuplicateId(a) => a == at
    case ReservedSink(a) => a == at
    case UnsupportedSink(a, _) => a == at
    case SinkNeedsOutput(a, _) => a == at
    case ThreadNeedsOutput(a) => a == at
    case _ => false
  }

  lemma {:induction false} SinkProblemsListed(p: Profile, at: nat, count: nat, i: nat)
    requires i < count <= |p.ownedSinks|
    ensures forall q | q in SinkProblem(p, at, p.ownedSinks[i]) :: q in SinkProblems(p, at, count)
    decreases count
  {
    hide SinkProblem;
    if i < count - 1 { SinkProblemsListed(p, at, count - 1, i); }
  }

  lemma ProfileProblemsListed(g: Given, at: nat, q: Problem)
    requires at < |g.profiles| && OfCatalog(q, at) && Owed(g, q)
    ensures var p := g.profiles[at];
            || q in IdProblems(p, at)
            || (q == DuplicateId(at) && p.id in ById(g.profiles, at))
            || q in SinkProblems(p, at, |p.ownedSinks|)
            || q in ThreadProblems(p, at)
  {
    var p := g.profiles[at];
    ByIdIsFirst(g.profiles, at);
    var sink := if q.ReservedSink? then ListenerNotice else if q.UnsupportedSink? || q.SinkNeedsOutput? then q.sink else MeetingText;
    if sink in p.ownedSinks {
      var i :| 0 <= i < |p.ownedSinks| && p.ownedSinks[i] == sink;
      SinkProblemsListed(p, at, |p.ownedSinks|, i);
    }
  }

  lemma {:induction false} CatalogProblemsListed(g: Given, count: nat, at: nat, q: Problem)
    requires at < count <= |g.profiles| && OfCatalog(q, at) && Owed(g, q)
    ensures q in CatalogProblems(g.profiles, count)
    decreases count
  {
    hide Owed, IdProblems, SinkProblems, ThreadProblems, ById, OfCatalog;
    if at < count - 1 {
      CatalogProblemsListed(g, count - 1, at, q);
    } else {
      ProfileProblemsListed(g, at, q);
    }
  }

  lemma {:induction false} DefaultProblemsListed(g: Given, count: nat, at: nat)
    requires at < count <= |g.defaults| && !Exists(g.profiles, g.defaults[at])
    ensures UnknownDefault(at) in DefaultProblems(g.defaults, ById(g.profiles, |g.profiles|), count)
    decreases count
  {
    ByIdIsFirst(g.profiles, |g.profiles|);
    if at < count - 1 { DefaultProblemsListed(g, count - 1, at); }
  }

  lemma ClaimGrows(s: Selection, p: Profile)
    ensures s.problems <= Claim(s, p).problems && Claim(s, p).seen == s.seen
  {
    ClaimSinksOnlyAdds(ClaimAgent(s, p), p, |p.ownedSinks|);
  }

  lemma {:induction false} SelectGrows(ids: seq<string>, byId: map<string, Profile>, before: seq<Problem>, from: nat, count: nat)
    requires from <= count <= |ids|
    ensures Select(ids, byId, before, from).problems <= Select(ids, byId, before, count).problems
    decreases count
  {
    if from < count {
      SelectGrows(ids, byId, before, from, count - 1);
      ProblemsOnlyGrow(Select(ids, byId, before, count - 1), byId, ids[count - 1], count - 1);
    }
  }

  lemma {:induction false} SeenSoFar(ids: seq<string>, byId: map<string, Profile>, before: seq<Problem>, count: nat)
    requires count <= |ids|
    ensures forall id :: id in Select(ids, byId, before, count).seen <==> id in ids[..count]
  {
    if count > 0 {
      SeenSoFar(ids, byId, before, count - 1);
      var s := Select(ids, byId, before, count - 1);
      assert ids[..count] == ids[..count - 1] + [ids[count - 1]];
      if ids[count - 1] !in s.seen && ids[count - 1] in byId {
        ClaimGrows(s.(seen := s.seen + {ids[count - 1]}, profiles := s.profiles + [byId[ids[count - 1]]]), byId[ids[count - 1]]);
      }
    }
  }

  lemma SelectionProblemListed(g: Given, before: seq<Problem>, at: nat)
    requires at < |g.ids|
    ensures var problems := Select(g.ids, ById(g.profiles, |g.profiles|), before, |g.ids|).problems;
            && (g.ids[at] in g.ids[..at] ==> RepeatedSelection(at) in problems)
            && (g.ids[at] !in g.ids[..at] && !Exists(g.profiles, g.ids[at]) ==> UnknownSelection(at) in problems)
  {
    var byId := ById(g.profiles, |g.profiles|);
    ByIdIsFirst(g.profiles, |g.profiles|);
    SeenSoFar(g.ids, byId, before, at);
    SelectGrows(g.ids, byId, before, at + 1, |g.ids|);
    var found := Select(g.ids, byId, before, at + 1).problems;
    PrefixListed(found, Select(g.ids, byId, before, |g.ids|).problems);
    assert g.ids[at] in g.ids[..at] ==> found[|found| - 1] == RepeatedSelection(at);
    assert g.ids[at] !in g.ids[..at] && !Exists(g.profiles, g.ids[at]) ==> found[|found| - 1] == UnknownSelection(at);
  }

  lemma PrefixListed(problems: seq<Problem>, more: seq<Problem>)
    requires problems <= more
    ensures forall q | q in problems :: q in more
  {
    assert more == problems + more[|problems|..];
  }

  /** The problems of a resolution: what was found before the selection, and what the selection adds. */
  function FoundBefore(g: Given): seq<Problem> {
    CatalogProblems(g.profiles, |g.profiles|)
    + DefaultProblems(g.defaults, ById(g.profiles, |g.profiles|), |g.defaults|)
    + (if g.lacksDefault then [NoDefault] else [])
  }

  function Listed(g: Given): seq<Problem> {
    Select(g.ids, ById(g.profiles, |g.profiles|), FoundBefore(g), |g.ids|).problems
  }

  lemma OwedIsListed(g: Given, q: Problem)
    requires Owed(g, q)
    ensures q in Listed(g)
  {
    hide Select, CatalogProblems, DefaultProblems, ById;
    var byId := ById(g.profiles, |g.profiles|);
    SelectGrows(g.ids, byId, FoundBefore(g), 0, |g.ids|);
    NothingSelected(g.ids, byId, FoundBefore(g));
    PrefixListed(FoundBefore(g), Listed(g));
    if q.UnknownDefault? {
      DefaultProblemsListed(g, |g.defaults|, q.at);
    } else if q.RepeatedSelection? || q.UnknownSelection? {
      SelectionProblemListed(g, FoundBefore(g), q.at);
    } else if q != NoDefault {
      CatalogProblemsListed(g, |g.profiles|, q.at, q);
    }
  }

  lemma NothingSelected(ids: seq<string>, byId: map<string, Profile>, before: seq<Problem>)
    ensures Select(ids, byId, before, 0).problems == before
  {}

  // The claims of the selected profiles.

  /** What is claimed stays claimed. */
  ghost predicate KeepsClaims(s: Selection, s': Selection) {
    && (forall a :: IsSet(Lookup(s.byAgent, a)) ==> IsSet(Lookup(s'.byAgent, a)))
    && (forall sink :: IsSet(Lookup(s.bySink, sink)) ==> IsSet(Lookup(s'.bySink, sink)))
    && (IsSet(s.thread) ==> IsSet(s'.thread))
    && (forall q | q in s.problems :: q in s'.problems)
  }

  lemma ClaimsKeep(s: Selection, p: Profile, sink: Sink)
    ensures KeepsClaims(s, ClaimAgent(s, p)) && KeepsClaims(s, ClaimSink(s, p, sink)) && KeepsClaims(s, ClaimThread(s, p))
    ensures p.id != "" ==> IsSet(Lookup(ClaimAgent(s, p).byAgent, p.agentAppId)) && IsSet(Lookup(ClaimSink(s, p, sink).bySink, sink))
    ensures p.id != "" && p.listenerThread ==> IsSet(ClaimThread(s, p).thread)
  {}

  lemma KeepsClaimsThen(s: Selection, s1: Selection, s2: Selection)
    requires KeepsClaims(s, s1) && KeepsClaims(s1, s2)
    ensures KeepsClaims(s, s2)
  {}

  /** A sink claimed before, or listed before by the profile itself, is reported. */
  lemma {:induction false} SinkClashListed(s: Selection, p: Profile, count: nat)
    requires count <= |p.ownedSinks|
    ensures var s' := ClaimSinks(s, p, count);
            && KeepsClaims(s, s')
            && (p.id != "" ==> forall i | 0 <= i < count :: IsSet(Lookup(s'.bySink, p.ownedSinks[i])))
            && (forall i | 0 <= i < count && IsSet(Lookup(s.bySink, p.ownedSinks[i])) ::
                  exists prior :: SharedSink(prior, p.id, p.ownedSinks[i]) in s'.problems)
            && (p.id != "" ==> forall i, j | 0 <= i < j < count && p.ownedSinks[i] == p.ownedSinks[j] ::
                  exists prior :: SharedSink(prior, p.id, p.ownedSinks[i]) in s'.problems)
  {
    if count > 0 {
      var s1, sink := ClaimSinks(s, p, count - 1), p.ownedSinks[count - 1];
      var s' := ClaimSinks(s, p, count);
      SinkClashListed(s, p, count - 1);
      hide KeepsClaims;
      assert s' == ClaimSink(s1, p, sink);
      ClaimsKeep(s1, p, sink);
      KeepsClaimsThen(s, s1, s');
      SetStays(s, s1, sink);
      forall i | 0 <= i < count - 1 && IsSet(Lookup(s1.bySink, p.ownedSinks[i])) ensures IsSet(Lookup(s'.bySink, p.ownedSinks[i])) {
        SetStays(s1, s', p.ownedSinks[i]);
      }
      ListedStays(s1, s');
      if IsSet(Lookup(s1.bySink, sink)) {
        assert SharedSink(Lookup(s1.bySink, sink).value, p.id, sink) in s'.problems;
      }
    }
  }

  lemma SetStays(s: Selection, s': Selection, sink: Sink)
    requires KeepsClaims(s, s')
    ensures IsSet(Lookup(s.bySink, sink)) ==> IsSet(Lookup(s'.bySink, sink))
  {}

  lemma ListedStays(s: Selection, s': Selection)
    requires KeepsClaims(s, s')
    ensures forall q | q in s.problems :: q in s'.problems
  {}

  /** The profile's agent, sinks and listener thread are taken. */
  predicate Claimed(s: Selection, p: Profile) {
    && IsSet(Lookup(s.byAgent, p.agentAppId))
    && (forall sink | sink in p.ownedSinks :: IsSet(Lookup(s.bySink, sink)))
    && (p.listenerThread ==> IsSet(s.thread))
  }

  /** What `p` finds taken is reported, under its own id. */
  ghost predicate ReportsClashes(s: Selection, p: Profile, problems: seq<Problem>) {
    && (IsSet(Lookup(s.byAgent, p.agentAppId)) ==> exists prior :: SharedAgent(prior, p.id) in problems)
    && (forall sink | sink in p.ownedSinks && IsSet(Lookup(s.bySink, sink)) ::
          exists prior :: SharedSink(prior, p.id, sink) in problems)
    && (p.listenerThread && IsSet(s.thread) ==> exists prior :: TwoThreads(prior, p.id) in problems)
    && (p.id != "" ==> forall i, j | 0 <= i < j < |p.ownedSinks| && p.ownedSinks[i] == p.ownedSinks[j] ::
          exists prior :: SharedSink(prior, p.id, p.ownedSinks[i]) in problems)
  }

  lemma AgentClashListed(s: Selection, p: Profile)
    ensures var s1 := ClaimAgent(s, p);
            && s1.bySink == s.bySink && s1.thread == s.thread
            && (IsSet(Lookup(s.byAgent, p.agentAppId)) ==>
                SharedAgent(Lookup(s.byAgent, p.agentAppId).value, p.id) in s1.problems)
  {}

  lemma ThreadClashListed(s: Selection, p: Profile)
    ensures p.listenerThread && IsSet(s.thread) ==> TwoThreads(s.thread.value, p.id) in ClaimThread(s, p).problems
  {}

  lemma ClaimListed(s: Selection, p: Profile)
    ensures var s' := Claim(s, p);
            && KeepsClaims(s, s') && (p.id != "" ==> Claimed(s', p)) && ReportsClashes(s, p, s'.problems)
  {
    hide KeepsClaims, ClaimAgent, ClaimSink, ClaimThread;
    var s1 := ClaimAgent(s, p);
    var s2 := ClaimSinks(s1, p, |p.ownedSinks|);
    var s3 := ClaimThread(s2, p);
    ClaimsKeep(s, p, MeetingText);
    AgentClashListed(s, p);
    SinkClashListed(s1, p, |p.ownedSinks|);
    ClaimSinksOnlyAdds(s1, p, |p.ownedSinks|);
    ThreadClashListed(s2, p);
    ClaimsKeep(s2, p, MeetingText);
    KeepsClaimsThen(s, s1, s2);
    KeepsClaimsThen(s, s2, s3);
    ListedStays(s1, s3) by { KeepsClaimsThen(s1, s2, s3); }
    ListedStays(s2, s3);
    AgentStays(s1, s3, p.agentAppId) by { KeepsClaimsThen(s1, s2, s3); }
    forall sink | sink in p.ownedSinks ensures p.id != "" ==> IsSet(Lookup(s3.bySink, sink)) {
      var i :| 0 <= i < |p.ownedSinks| && p.ownedSinks[i] == sink;
      SetStays(s2, s3, sink);
    }
    forall sink | sink in p.ownedSinks && IsSet(Lookup(s.bySink, sink))
      ensures exists prior :: SharedSink(prior, p.id, sink) in s3.problems
    {
      var i :| 0 <= i < |p.ownedSinks| && p.ownedSinks[i] == sink;
      assert IsSet(Lookup(s1.bySink, p.ownedSinks[i]));
    }
  }

  lemma AgentStays(s: Selection, s': Selection, agent: string)
    requires KeepsClaims(s, s')
    ensures IsSet(Lookup(s.byAgent, agent)) ==> IsSet(Lookup(s'.byAgent, agent))
  {}

  /** The id is taken into the selection at `at`: for the first time, and the catalog knows it. */
  predicate SelectedAt(g: Given, at: nat) {
    at < |g.ids| && g.ids[at] !in g.ids[..at] && g.ids[at] in ById(g.profiles, |g.profiles|)
  }

  lemma SelectOneClaims(s: Selection, byId: map<string, Profile>, id: string, at: nat)
    ensures var s' := SelectOne(s, byId, id, at);
            && KeepsClaims(s, s')
            && (id !in s.seen && id in byId ==>
                && (byId[id].id != "" ==> Claimed(s', byId[id]))
                && ReportsClashes(s, byId[id], s'.problems))
  {
    if id !in s.seen && id in byId {
      hide Claim, ReportsClashes, Claimed;
      var s1 := s.(seen := s.seen + {id}, profiles := s.profiles + [byId[id]]);
      ClaimListed(s1, byId[id]);
      SameClashes(s, s1, byId[id], Claim(s1, byId[id]).problems);
    }
  }

  lemma SameClashes(s: Selection, s1: Selection, p: Profile, problems: seq<Problem>)
    requires s1 == s.(seen := s1.seen, profiles := s1.profiles)
    ensures ReportsClashes(s1, p, problems) ==> ReportsClashes(s, p, problems)
  {}

  lemma {:induction false} SelectKeepsClaims(ids: seq<string>, byId: map<string, Profile>, before: seq<Problem>, from: nat, count: nat)
    requires from <= count <= |ids|
    ensures KeepsClaims(Select(ids, byId, before, from), Select(ids, byId, before, count))
    decreases count
  {
    if from < count {
      hide KeepsClaims, SelectOne;
      var s := Select(ids, byId, before, count - 1);
      SelectKeepsClaims(ids, byId, before, from, count - 1);
      SelectOneClaims(s, byId, ids[count - 1], count - 1);
      KeepsClaimsThen(Select(ids, byId, before, from), s, Select(ids, byId, before, count));
    } else {
      KeepsOwn(Select(ids, byId, before, from));
    }
  }

  lemma KeepsOwn(s: Selection)
    ensures KeepsClaims(s, s)
  {}

  /** What the two selected profiles share is reported under the later one. */
  ghost predicate ReportsShared(p: Profile, q: Profile, problems: seq<Problem>) {
    && (p.agentAppId == q.agentAppId ==> exists prior :: SharedAgent(prior, q.id) in problems)
    && (forall sink | sink in p.ownedSinks && sink in q.ownedSinks :: exists prior :: SharedSink(prior, q.id, sink) in problems)
    && (p.listenerThread && q.listenerThread ==> exists prior :: TwoThreads(prior, q.id) in problems)
  }

  lemma SharedIsReported(s0: Selection, s: Selection, p: Profile, q: Profile, problems: seq<Problem>)
    requires KeepsClaims(s0, s) && Claimed(s0, p) && ReportsClashes(s, q, problems)
    ensures ReportsShared(p, q, problems)
  {}

  lemma ReportsMore(p: Profile, q: Profile, problems: seq<Problem>, more: seq<Problem>)
    requires ReportsShared(p, q, problems) && forall x | x in problems :: x in more
    ensures ReportsShared(p, q, more)
  {}

  lemma SharedIsListed(g: Given, i: nat, j: nat)
    requires i < j && SelectedAt(g, i) && SelectedAt(g, j) && g.ids[i] != ""
    ensures var byId := ById(g.profiles, |g.profiles|); ReportsShared(byId[g.ids[i]], byId[g.ids[j]], Listed(g))
  {
    hide KeepsClaims, Claimed, ReportsClashes, ReportsShared, SelectOne, ById, FoundBefore;
    var byId, before := ById(g.profiles, |g.profiles|), FoundBefore(g);
    var p, q := byId[g.ids[i]], byId[g.ids[j]];
    ByIdIsFirst(g.profiles, |g.profiles|);
    SeenSoFar(g.ids, byId, before, i);
    SeenSoFar(g.ids, byId, before, j);
    SelectOneClaims(Select(g.ids, byId, before, i), byId, g.ids[i], i);
    SelectKeepsClaims(g.ids, byId, before, i + 1, j);
    SelectOneClaims(Select(g.ids, byId, before, j), byId, g.ids[j], j);
    var found := Select(g.ids, byId, before, j + 1).problems;
    SharedIsReported(Select(g.ids, byId, before, i + 1), Select(g.ids, byId, before, j), p, q, found);
    SelectGrows(g.ids, byId, before, j + 1, |g.ids|);
    PrefixListed(found, Listed(g));
    ReportsMore(p, q, found, Listed(g));
  }

  /** A refusal leaves nothing out: every problem of the catalog, the defaults and the ids of the
      selection is listed, and whenever two selected profiles share an agent, a sink or the listener
      thread, the later one is reported for it (but for an earlier one with the empty id, which is
      reported as malformed). */
  lemma EveryProblemIsListed(config: Config, requested: Option<seq<string>>)
    requires config.profiles.Some?
    ensures var g := Given(config.profiles.value, Defaults(config), Chosen(config, requested), LacksDefault(config, requested));
            var byId := ById(g.profiles, |g.profiles|);
            var r := Resolve(config, requested);
            && (r.Refused? <==> Listed(g) != []) && (r.Refused? ==> r.problems == Listed(g))
            && (forall q | Owed(g, q) :: r.Refused? && q in r.problems)
            && (forall i, j | 0 <= i < j && SelectedAt(g, i) && SelectedAt(g, j) && g.ids[i] != "" ::
                  ReportsShared(byId[g.ids[i]], byId[g.ids[j]], if r.Refused? then r.problems else []))
  {
    hide Owed, Select, ById, FoundBefore, ReportsShared, CatalogProblems, DefaultProblems;
    var g := Given(config.profiles.value, Defaults(config), Chosen(config, requested), LacksDefault(config, requested));
    ListedIsResolved(config, requested);
    forall q | Owed(g, q) ensures q in Listed(g) { OwedIsListed(g, q); }
    forall i, j | 0 <= i < j && SelectedAt(g, i) && SelectedAt(g, j) && g.ids[i] != ""
      ensures ReportsShared(ById(g.profiles, |g.profiles|)[g.ids[i]], ById(g.profiles, |g.profiles|)[g.ids[j]], Listed(g))
    {
      SharedIsListed(g, i, j);
    }
  }

  lemma ListedIsResolved(config: Config, requested: Option<seq<string>>)
    requires config.profiles.Some?
    ensures var g := Given(config.profiles.value, Defaults(config), Chosen(config, requested), LacksDefault(config, requested));
            var r := Resolve(config, requested);
            (r.Refused? <==> Listed(g) != []) && (r.Refused? ==> r.problems == Listed(g))
  {
    hide Select, ById, CatalogProblems, DefaultProblems;
  }
}
