/**
 * The agent count of agent-stats and admin-agent-stats: every user whose
 * lower-cased `user_metadata.role` is "agent" is counted, and agents with a
 * non-empty trimmed, upper-cased `parent_ma_code` are also counted per code
 * in `counts`; `byMasterAgent` lists those counts, largest first.
 */
module AgentTally {
  import opened Wrappers
  import opened JsValues
  import opened Identity
  import opened Sorting

  /** What the loop body makes of one user. */
  datatype Kind = NotAgent | AgentOf(parent: string) | Fails

  /**
   * `u.user_metadata` throws for a `null` user; the role is read as `mode`
   * says (`String(meta.role || "")` in agent-stats, `(meta.role || "")` in
   * admin-agent-stats).
   */
  function Classify(u: Json, mode: RoleRead): (k: Kind)
    ensures k.Fails? <==> u.Null? || LowerOf(Get(MetaOf(u), "role"), mode).None?
    ensures k.AgentOf? <==> !u.Null? && LowerOf(Get(MetaOf(u), "role"), mode) == Some("agent")
    ensures k.AgentOf? ==> k.parent == ParentCode(MetaOf(u), ["parent_ma_code"])
  {
    if u.Null? then Fails
    else
      var meta := MetaOf(u);
      match LowerOf(Get(meta, "role"), mode)
      case None => Fails
      case Some(role) =>
        if role != "agent" then NotAgent else AgentOf(ParentCode(meta, ["parent_ma_code"]))
  }

  /** What the loop body makes of each user, in order. */
  function KindsOf(users: seq<Json>, mode: RoleRead): (ks: seq<Kind>)
    ensures |ks| == |users|
  {
    if users == [] then []
    else KindsOf(users[..|users| - 1], mode) + [Classify(users[|users| - 1], mode)]
  }

  lemma {:induction false} KindsOfIndex(users: seq<Json>, mode: RoleRead, i: nat)
    requires i < |users|
    ensures KindsOf(users, mode)[i] == Classify(users[i], mode)
    decreases |users|
  {
    if i < |users| - 1 {
      var init := users[..|users| - 1];
      KindsOfIndex(init, mode, i);
      assert init[i] == users[i];
    }
  }

  lemma NoneFails(users: seq<Json>, mode: RoleRead)
    requires forall j :: 0 <= j < |users| ==> !KindsOf(users, mode)[j].Fails?
    ensures forall j :: 0 <= j < |users| ==> !Classify(users[j], mode).Fails?
  {
    forall j | 0 <= j < |users| ensures !Classify(users[j], mode).Fails? {
      KindsOfIndex(users, mode, j);
    }
  }

  lemma KindsOfStep(users: seq<Json>, mode: RoleRead, i: nat)
    requires i < |users|
    ensures KindsOf(users[..i + 1], mode) == KindsOf(users[..i], mode) + [Classify(users[i], mode)]
  {
    assert users[..i + 1][..i] == users[..i];
  }

  /** The number of agents. */
  function AgentCount(ks: seq<Kind>): nat {
    if ks == [] then 0
    else AgentCount(ks[..|ks| - 1]) + (if ks[|ks| - 1].AgentOf? then 1 else 0)
  }

  /** The number of agents whose parent code is `p`. */
  function ParentCount(ks: seq<Kind>, p: string): nat {
    if ks == [] then 0
    else ParentCount(ks[..|ks| - 1], p) + (if ks[|ks| - 1] == AgentOf(p) then 1 else 0)
  }

  /** The non-empty parent codes, in order of first appearance (the order `Object.entries` lists them). */
  function Parents(ks: seq<Kind>): seq<string> {
    if ks == [] then []
    else
      var ps := Parents(ks[..|ks| - 1]);
      var k := ks[|ks| - 1];
      if k.AgentOf? && k.parent != "" && k.parent !in ps then ps + [k.parent] else ps
  }

  /** The `counts` object and `totalAgents` after the loop. */
  datatype Tally = Tally(counts: map<string, nat>, keys: seq<string>, totalAgents: nat)

  /** What the counting loop leaves behind, or `None` when some user makes it throw. */
  function TallyOf(users: seq<Json>, mode: RoleRead): (r: Option<Tally>)
    ensures r.Some? ==> forall p :: p in r.value.keys <==> p in r.value.counts
  {
    var ks := KindsOf(users, mode);
    if exists i :: 0 <= i < |users| && Classify(users[i], mode).Fails? then None
    else Some(Tally(map p | p in Parents(ks) :: ParentCount(ks, p), Parents(ks), AgentCount(ks)))
  }

  /** The counting loop; `None` when some user makes it throw. */
  method TallyAgents(users: seq<Json>, mode: RoleRead) returns (r: Option<Tally>)
    ensures r.None? <==> exists i :: 0 <= i < |users| && Classify(users[i], mode).Fails?
    ensures r.Some? ==> r.value.totalAgents == AgentCount(KindsOf(users, mode))
    ensures r.Some? ==> r.value.keys == Parents(KindsOf(users, mode))
    ensures r.Some? ==> forall p :: p in r.value.counts <==> p in r.value.keys
    ensures r.Some? ==> forall p :: p in r.value.counts ==> r.value.counts[p] == ParentCount(KindsOf(users, mode), p)
    ensures r == TallyOf(users, mode)
  {
    // The users are classified up front; classifying is free of effects, so
    // only the outcome of the first user that throws matters, as in the loop.
    var ks := KindsOf(users, mode);
    var counts: map<string, nat> := map[];
    var keys: seq<string> := [];
    var total: nat := 0;
    var i := 0;
    while i < |users|
      invariant 0 <= i <= |users|
      invariant forall j :: 0 <= j < i ==> !ks[j].Fails?
      invariant total == AgentCount(ks[..i])
      invariant keys == Parents(ks[..i])
      invariant forall p :: p in counts <==> p in keys
      invariant forall p :: p in counts ==> counts[p] == ParentCount(ks[..i], p)
    {
      var k := ks[i];
      if k.Fails? {
        KindsOfIndex(users, mode, i);
        return None;
      }
      ghost var counts0, keys0, total0 := counts, keys, total;
      if k.AgentOf? {
        total := total + 1;
        if k.parent != "" {
          if k.parent !in counts {
            keys := keys + [k.parent];
            counts := counts[k.parent := 1];
          } else {
            counts := counts[k.parent := counts[k.parent] + 1];
          }
        }
      }
      TallyStep(ks[..i], k, counts0, keys0, total0, counts, keys, total);
      assert ks[..i + 1] == ks[..i] + [k];
      i := i + 1;
    }
    assert ks[..i] == ks;
    NoneFails(users, mode);
    TallyOfIs(users, mode, Tally(counts, keys, total));
    return Some(Tally(counts, keys, total));
  }

  lemma TallyOfIs(users: seq<Json>, mode: RoleRead, t: Tally)
    requires forall j :: 0 <= j < |users| ==> !Classify(users[j], mode).Fails?
    requires t.totalAgents == AgentCount(KindsOf(users, mode)) && t.keys == Parents(KindsOf(users, mode))
    requires forall p :: p in t.counts <==> p in t.keys
    requires forall p :: p in t.counts ==> t.counts[p] == ParentCount(KindsOf(users, mode), p)
    ensures TallyOf(users, mode) == Some(t)
  {
    var ks := KindsOf(users, mode);
    assert t.counts == map p | p in Parents(ks) :: ParentCount(ks, p);
  }

  /** One pass of the loop body keeps the tally exact for one more user. */
  lemma TallyStep(ks: seq<Kind>, k: Kind, counts0: map<string, nat>, keys0: seq<string>, total0: nat,
                  counts: map<string, nat>, keys: seq<string>, total: nat)
    requires total0 == AgentCount(ks) && keys0 == Parents(ks)
    requires forall p :: p in counts0 <==> p in keys0
    requires forall p :: p in counts0 ==> counts0[p] == ParentCount(ks, p)
    requires total == total0 + (if k.AgentOf? then 1 else 0)
    requires k.AgentOf? && k.parent != "" && k.parent !in counts0 ==>
      keys == keys0 + [k.parent] && counts == counts0[k.parent := 1]
    requires k.AgentOf? && k.parent != "" && k.parent in counts0 ==>
      keys == keys0 && counts == counts0[k.parent := counts0[k.parent] + 1]
    requires !(k.AgentOf? && k.parent != "") ==> keys == keys0 && counts == counts0
    ensures total == AgentCount(ks + [k]) && keys == Parents(ks + [k])
    ensures forall p :: p in counts <==> p in keys
    ensures forall p :: p in counts ==> counts[p] == ParentCount(ks + [k], p)
  {
    Extend(ks, k);
    CountsStep(counts0, counts, ks, k);
  }

  /** The update of `counts[parent] = (counts[parent] || 0) + 1` keeps every count exact. */
  lemma CountsStep(before: map<string, nat>, after: map<string, nat>, ks: seq<Kind>, k: Kind)
    requires forall p :: p in before ==> before[p] == ParentCount(ks, p)
    requires forall p :: p in before <==> p in Parents(ks)
    requires k.AgentOf? && k.parent != "" && k.parent !in before ==> after == before[k.parent := 1]
    requires k.AgentOf? && k.parent != "" && k.parent in before ==> after == before[k.parent := before[k.parent] + 1]
    requires !(k.AgentOf? && k.parent != "") ==> after == before
    ensures forall p :: p in after ==> after[p] == ParentCount(ks + [k], p)
  {
    Extend(ks, k);
    ParentsFacts(ks);
  }

  /** What one more user changes. */
  lemma Extend(ks: seq<Kind>, k: Kind)
    ensures var t := ks + [k];
      && AgentCount(t) == AgentCount(ks) + (if k.AgentOf? then 1 else 0)
      && (forall p :: ParentCount(t, p) == ParentCount(ks, p) + (if k == AgentOf(p) then 1 else 0))
      && Parents(t) == if k.AgentOf? && k.parent != "" && k.parent !in Parents(ks)
                       then Parents(ks) + [k.parent] else Parents(ks)
  {
    var t := ks + [k];
    assert t[..|t| - 1] == ks && t[|t| - 1] == k;
  }

  /** The parent codes are distinct and non-empty, and are exactly the codes with a positive count. */
  lemma {:induction false} ParentsFacts(ks: seq<Kind>)
    ensures var ps := Parents(ks);
      && (forall i, j :: 0 <= i < j < |ps| ==> ps[i] != ps[j])
      && (forall p :: p in ps <==> p != "" && ParentCount(ks, p) > 0)
    decreases |ks|
  {
    if ks != [] {
      var k0 := ks[..|ks| - 1];
      ParentsFacts(k0);
      assert ks == k0 + [ks[|ks| - 1]];
      Extend(k0, ks[|ks| - 1]);
    }
  }

  /** The sum of the counts over some codes. */
  function SumCounts(keys: seq<string>, ks: seq<Kind>): nat {
    if keys == [] then 0 else ParentCount(ks, keys[0]) + SumCounts(keys[1..], ks)
  }

  /** The number of agents with an empty parent code, which `counts` skips. */
  function Orphans(ks: seq<Kind>): nat {
    ParentCount(ks, "")
  }

  lemma {:induction false} SumSame(keys: seq<string>, s: seq<Kind>, t: seq<Kind>)
    requires forall k :: k in keys ==> ParentCount(s, k) == ParentCount(t, k)
    ensures SumCounts(keys, s) == SumCounts(keys, t)
    decreases |keys|
  {
    if keys != [] {
      SumSame(keys[1..], s, t);
    }
  }

  lemma {:induction false} SumBump(keys: seq<string>, s: seq<Kind>, t: seq<Kind>, p: string)
    requires forall i, j :: 0 <= i < j < |keys| ==> keys[i] != keys[j]
    requires p in keys
    requires forall k :: k in keys ==> ParentCount(t, k) == ParentCount(s, k) + (if k == p then 1 else 0)
    ensures SumCounts(keys, t) == SumCounts(keys, s) + 1
    decreases |keys|
  {
    if keys[0] == p {
      assert p !in keys[1..] by {
        forall j | 0 <= j < |keys[1..]| ensures keys[1..][j] != p {
          assert keys[1..][j] == keys[j + 1];
        }
      }
      SumSame(keys[1..], s, t);
    } else {
      SumBump(keys[1..], s, t, p);
    }
  }

  lemma {:induction false} SumAppend(keys: seq<string>, p: string, ks: seq<Kind>)
    ensures SumCounts(keys + [p], ks) == SumCounts(keys, ks) + ParentCount(ks, p)
    decreases |keys|
  {
    if keys != [] {
      assert (keys + [p])[1..] == keys[1..] + [p];
      SumAppend(keys[1..], p, ks);
    }
  }

  /**
   * Every agent is accounted for: the counts add up to `totalAgents` less
   * the agents with an empty parent code. So they never exceed `totalAgents`.
   */
  lemma {:induction false} CountsAddUp(ks: seq<Kind>)
    ensures SumCounts(Parents(ks), ks) + Orphans(ks) == AgentCount(ks)
    ensures SumCounts(Parents(ks), ks) <= AgentCount(ks)
    decreases |ks|
  {
    if ks != [] {
      var k0 := ks[..|ks| - 1];
      var k := ks[|ks| - 1];
      CountsAddUp(k0);
      ParentsFacts(k0);
      assert ks == k0 + [k];
      Extend(k0, k);
      var ps := Parents(k0);
      if k.AgentOf? && k.parent != "" {
        if k.parent in ps {
          SumBump(ps, k0, ks, k.parent);
        } else {
          SumSame(ps, k0, ks);
          SumAppend(ps, k.parent, ks);
        }
      } else {
        SumSame(ps, k0, ks);
      }
    }
  }

  // --- byMasterAgent -------------------------------------------------------

  datatype Entry = Entry(maCode: string, agentCount: nat)

  /** `Object.entries(counts).map(([ma_code, agent_count]) => ({ ma_code, agent_count }))` */
  function Entries(t: Tally): seq<Entry>
    requires forall p :: p in t.keys ==> p in t.counts
  {
    seq(|t.keys|, i requires 0 <= i < |t.keys| => Entry(t.keys[i], t.counts[t.keys[i]]))
  }

  /** `.sort((a, b) => b.agent_count - a.agent_count)` */
  function ByCountDesc(): (Entry, Entry) -> bool {
    (a: Entry, b: Entry) => a.agentCount > b.agentCount
  }

  function ByMasterAgent(t: Tally): seq<Entry>
    requires forall p :: p in t.keys ==> p in t.counts
  {
    SortBy(Entries(t), ByCountDesc())
  }

  /**
   * `byMasterAgent` holds exactly the entries of `counts`, largest count
   * first, and codes with equal counts stay in `Object.entries` order.
   */
  lemma ByMasterAgentOrdered(t: Tally)
    requires forall p :: p in t.keys ==> p in t.counts
    ensures var b := ByMasterAgent(t);
      && multiset(b) == multiset(Entries(t))
      && (forall i, j :: 0 <= i < j < |b| ==> b[i].agentCount >= b[j].agentCount)
      && (forall c :: TiedWith(b, ByCountDesc(), c) == TiedWith(Entries(t), ByCountDesc(), c))
  {
    DescendingIntStrictWeak(ByCountDesc(), (e: Entry) => e.agentCount);
    SortSorted(Entries(t), ByCountDesc());
    SortPermutes(Entries(t), ByCountDesc());
    forall c {
      SortStable(Entries(t), ByCountDesc(), c);
    }
  }

  // --- The reply ------------------------------------------------------------

  /** `{ totalUsers, totalAgents, byMasterAgent }` */
  datatype Stats = Stats(totalUsers: nat, totalAgents: nat, byMasterAgent: seq<Entry>)

  function StatsOf(users: seq<Json>, mode: RoleRead): (r: Option<Stats>)
    ensures r.None? <==> exists i :: 0 <= i < |users| && Classify(users[i], mode).Fails?
  {
    match TallyOf(users, mode)
    case None => None
    case Some(t) => Some(Stats(|users|, t.totalAgents, ByMasterAgent(t)))
  }

  /** The counting loop followed by the sort of its entries. */
  method Summarise(users: seq<Json>, mode: RoleRead) returns (r: Option<Stats>)
    ensures r == StatsOf(users, mode)
  {
    var t := TallyAgents(users, mode);
    if t.None? {
      return None;
    }
    var byMasterAgent := SortBy(Entries(t.value), ByCountDesc());
    return Some(Stats(|users|, t.value.totalAgents, byMasterAgent));
  }

  /**
   * A reply counts every user and every agent; it lists each non-empty parent
   * code once with its exact count, largest first, and those counts add up to
   * the agents that have a parent code.
   */
  lemma StatsFacts(users: seq<Json>, mode: RoleRead)
    requires StatsOf(users, mode).Some?
    ensures var s := StatsOf(users, mode).value;
      var ks := KindsOf(users, mode);
      && s.totalUsers == |users|
      && s.totalAgents == AgentCount(ks)
      && (forall i :: 0 <= i < |s.byMasterAgent| ==>
            s.byMasterAgent[i].maCode != "" && s.byMasterAgent[i].agentCount == ParentCount(ks, s.byMasterAgent[i].maCode))
      && (forall p :: p != "" && ParentCount(ks, p) > 0 ==> Entry(p, ParentCount(ks, p)) in s.byMasterAgent)
      && (forall i, j :: 0 <= i < j < |s.byMasterAgent| ==> s.byMasterAgent[i].agentCount >= s.byMasterAgent[j].agentCount)
      && SumCounts(Parents(ks), ks) + Orphans(ks) == s.totalAgents
  {
    var ks := KindsOf(users, mode);
    var t := TallyOf(users, mode).value;
    assert t == Tally(map p | p in Parents(ks) :: ParentCount(ks, p), Parents(ks), AgentCount(ks));
    assert StatsOf(users, mode).value == Stats(|users|, t.totalAgents, ByMasterAgent(t));
    ReplyFacts(ks, t);
  }

  /** The entries sorted out of the tally of `ks`. */
  lemma ReplyFacts(ks: seq<Kind>, t: Tally)
    requires t == Tally(map p | p in Parents(ks) :: ParentCount(ks, p), Parents(ks), AgentCount(ks))
    ensures forall p :: p in t.keys ==> p in t.counts
    ensures var b := ByMasterAgent(t);
      && (forall i :: 0 <= i < |b| ==> b[i].maCode != "" && b[i].agentCount == ParentCount(ks, b[i].maCode))
      && (forall p :: p != "" && ParentCount(ks, p) > 0 ==> Entry(p, ParentCount(ks, p)) in b)
      && (forall i, j :: 0 <= i < j < |b| ==> b[i].agentCount >= b[j].agentCount)
      && SumCounts(Parents(ks), ks) + Orphans(ks) == t.totalAgents
  {
    var b := ByMasterAgent(t);
    ByMasterAgentOrdered(t);
    ParentsFacts(ks);
    CountsAddUp(ks);
    forall i | 0 <= i < |b|
      ensures b[i].maCode != "" && b[i].agentCount == ParentCount(ks, b[i].maCode)
    {
      assert b[i] in multiset(Entries(t));
    }
    forall p | p != "" && ParentCount(ks, p) > 0
      ensures Entry(p, ParentCount(ks, p)) in b
    {
      var k :| 0 <= k < |t.keys| && t.keys[k] == p;
      assert Entries(t)[k] == Entry(p, ParentCount(ks, p));
      assert Entry(p, ParentCount(ks, p)) in multiset(b);
    }
  }
}
