/** The engines of one virtual SMSC, one per profile it can run, built once at boot. */
module Engines {
  import opened Wrappers
  import opened Schema
  import opened Cursors
  import opened ScenarioEngine

  /** The part of a virtual SMSC's configuration that decides what its binds do. */
  datatype Setup = Setup(
    seed: Option<bv64>, nameHash: bv64, limit: Option<int>, scenario: Scenario,
    transitions: seq<Entry<Profile>>, disconnects: seq<Entry<Cut>>, messages: seq<nat>, flushMs: Option<int>)

  function Targeted(ts: seq<Entry<Profile>>): set<Profile> {
    set i | 0 <= i < |ts| :: ts[i].what
  }

  /** The initial engine, and a bare one per other transition target. */
  ghost predicate Covers(m: map<Profile, Engine>, p: Profile, initial: Engine, ts: seq<Entry<Profile>>, limit: Option<int>) {
    && m.Keys == {p} + Targeted(ts)
    && m[p] == initial
    && forall q :: q in m && q != p ==> m[q] == New(Bare(q), limit, [])
  }

  method BuildEngines(p: Profile, initial: Engine, ts: seq<Entry<Profile>>, limit: Option<int>) returns (m: map<Profile, Engine>)
    ensures Covers(m, p, initial, ts, limit)
  {
    m := map[p := initial];
    for i := 0 to |ts|
      invariant Covers(m, p, initial, ts[..i], limit)
    {
      assert Targeted(ts[..i + 1]) == Targeted(ts[..i]) + {ts[i].what};
      if ts[i].what !in m {
        m := m[ts[i].what := New(Bare(ts[i].what), limit, [])];
      }
    }
    assert ts[..|ts|] == ts;
  }

  /** The engines of a setup whose error mix is walked in the order `listing`. */
  function EnginesOf(c: Setup, listing: seq<Code>): (m: map<Profile, Engine>)
    requires ListsMix(listing, c.scenario.params)
  {
    map q | q in {c.scenario.profile} + Targeted(c.transitions) ::
      if q == c.scenario.profile then New(c.scenario, c.limit, listing) else New(Bare(q), c.limit, [])
  }

  /**
    No transition misses its engine and all planned receipts share one delay; every engine can be drawn
    from, given that the initial one can: a bare engine has no weights.
  */
  lemma {:induction false} EnginesComplete(c: Setup, listing: seq<Code>)
    requires Buildable(c.scenario, listing)
    ensures
      var m := EnginesOf(c, listing);
      && c.scenario.profile in m
      && (forall i :: 0 <= i < |c.transitions| ==> c.transitions[i].what in m)
      && (forall q :: q in m ==> Ready(m[q]) && (m[q].dlr.Some? ==> m[q].dlr.value.delayTicks == DelayOf(c)))
  {
    NewReady(c.scenario, c.limit, listing);
    forall q ensures Ready(New(Bare(q), c.limit, [])) {
      NewReady(Bare(q), c.limit, []);
    }
  }

  function DelayOf(c: Setup): nat {
    if c.scenario.dlr.Some? && c.scenario.dlr.value.ticks.Some? then c.scenario.dlr.value.ticks.value else 0
  }
}
