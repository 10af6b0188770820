/** internal/observer/endpoints.go: the incremental index that turns EndpointSlice
    updates into per-IP Ready and Removed events. */
module Endpoints {
  import opened Basics
  import opened Correlation

  datatype Endpoint = Endpoint(ready: Option<bool>, addresses: seq<string>)
  datatype SliceEvent = SliceEvent(name: string, endpoints: seq<Endpoint>, deleted: bool)

  // ----- what the whole log says

  /** The latest version of a slice, if it is not deleted. */
  function Current(log: seq<SliceEvent>, name: string): Option<seq<Endpoint>> {
    if log == [] then None
    else
      var last := log[|log| - 1];
      if last.name != name then Current(log[..|log| - 1], name)
      else if last.deleted then None
      else Some(last.endpoints)
  }

  predicate ReadyIn(eps: seq<Endpoint>, ip: string) {
    exists i :: 0 <= i < |eps| && eps[i].ready == Some(true) && ip in eps[i].addresses
  }

  ghost predicate IsReady(log: seq<SliceEvent>, ip: string) {
    exists name :: Current(log, name).Some? && ReadyIn(Current(log, name).value, ip)
  }

  // ----- what the emitted events say

  /** The kinds of the events about one IP, in order. */
  function Kinds(events: seq<EndpointEvent>, ip: string): seq<EventKind> {
    if events == [] then []
    else
      var last := events[|events| - 1];
      Kinds(events[..|events| - 1], ip) + if last.podIP == ip then [last.kind] else []
  }

  function Replay(ready: set<string>, events: seq<EndpointEvent>): set<string> {
    if events == [] then ready
    else
      var last := events[|events| - 1];
      var before := Replay(ready, events[..|events| - 1]);
      if last.kind.Ready? then before + {last.podIP} else before - {last.podIP}
  }

  predicate Alternates(ks: seq<EventKind>) {
    forall k :: 0 <= k < |ks| ==> ks[k] == if k % 2 == 0 then EventKind.Ready else Removed
  }

  lemma {:induction false} KindsConcat(a: seq<EndpointEvent>, b: seq<EndpointEvent>, ip: string)
    ensures Kinds(a + b, ip) == Kinds(a, ip) + Kinds(b, ip)
    decreases |b|
  {
    if b == [] {
      assert a + b == a;
    } else {
      KindsConcat(a, b[..|b| - 1], ip);
      assert (a + b)[..|a + b| - 1] == a + b[..|b| - 1];
    }
  }

  /** Replaying leaves an IP in the state its last event put it in. */
  lemma {:induction false} ReplayFollowsKinds(ready: set<string>, events: seq<EndpointEvent>, ip: string)
    ensures var ks := Kinds(events, ip);
            ip in Replay(ready, events) <==> if ks == [] then ip in ready else ks[|ks| - 1].Ready?
    decreases |events|
  {
    if events != [] {
      ReplayFollowsKinds(ready, events[..|events| - 1], ip);
    }
  }

  /** The kinds a step from `before` to `after` calls for. */
  function Change(before: set<string>, after: set<string>, ip: string): seq<EventKind> {
    if ip in after && ip !in before then [EventKind.Ready]
    else if ip in before && ip !in after then [Removed]
    else []
  }

  method ReadSlice(eps: seq<Endpoint>) returns (m: map<string, bool>)
    ensures forall ip :: (ip in m && m[ip]) <==> ReadyIn(eps, ip)
  {
    m := map[];
    for i := 0 to |eps|
      invariant forall ip :: (ip in m && m[ip]) <==> ReadyIn(eps[..i], ip)
    {
      var ready := eps[i].ready.Some? && eps[i].ready.value;
      var addresses := eps[i].addresses;
      for k := 0 to |addresses|
        invariant forall ip :: (ip in m && m[ip]) <==> (ReadyIn(eps[..i], ip) || (ready && ip in addresses[..k]))
      {
        var ip := addresses[k];
        m := m[ip := (ip in m && m[ip]) || ready];
      }
      assert addresses[..|addresses|] == addresses;
      ReadyInOneMore(eps, i);
    }
    assert eps[..|eps|] == eps;
  }

  lemma ReadyInOneMore(eps: seq<Endpoint>, i: nat)
    requires i < |eps|
    ensures forall ip :: ReadyIn(eps[..i + 1], ip) <==>
              ReadyIn(eps[..i], ip) || (eps[i].ready == Some(true) && ip in eps[i].addresses)
  {
    var more := eps[..i + 1];
    forall ip
      ensures ReadyIn(more, ip) <==> ReadyIn(eps[..i], ip) || (eps[i].ready == Some(true) && ip in eps[i].addresses)
    {
      if ReadyIn(eps[..i], ip) {
        var n :| 0 <= n < i && eps[..i][n].ready == Some(true) && ip in eps[..i][n].addresses;
        assert more[n] == eps[..i][n];
      }
      if eps[i].ready == Some(true) && ip in eps[i].addresses {
        assert more[i] == eps[i];
      }
      if ReadyIn(more, ip) {
        var n :| 0 <= n < |more| && more[n].ready == Some(true) && ip in more[n].addresses;
        if n < i { assert eps[..i][n] == more[n]; }
      }
    }
  }

  predicate ReadyInSome(slices: map<string, map<string, bool>>, names: set<string>, ip: string) {
    exists name :: name in names && name in slices && ip in slices[name] && slices[name][ip]
  }

  /** The ready IPs of all slices, whatever order the maps are walked in. */
  method Union(slices: map<string, map<string, bool>>) returns (next: set<string>)
    ensures forall ip :: ip in next <==> ReadyInSome(slices, slices.Keys, ip)
  {
    next := {};
    var rest := slices.Keys;
    while rest != {}
      invariant rest <= slices.Keys
      invariant forall ip :: ip in next <==> ReadyInSome(slices, slices.Keys - rest, ip)
    {
      var name :| name in rest;
      var m := slices[name];
      next := next + set ip | ip in m && m[ip];
      rest := rest - {name};
    }
  }

  /** Exactly one event, of the given kind, for each of these IPs. */
  ghost predicate Announces(events: seq<EndpointEvent>, ips: set<string>, kind: EventKind) {
    forall ip :: Kinds(events, ip) == if ip in ips then [kind] else []
  }

  lemma AnnouncesOneMore(events: seq<EndpointEvent>, ips: set<string>, e: EndpointEvent)
    requires Announces(events, ips, e.kind) && e.podIP !in ips
    ensures Announces(events + [e], ips + {e.podIP}, e.kind)
  {
    assert (events + [e])[..|events|] == events;
    forall ip
      ensures Kinds(events + [e], ip) == if ip in ips + {e.podIP} then [e.kind] else []
    {
      assert Kinds(events + [e], ip) == Kinds(events, ip) + if e.podIP == ip then [e.kind] else [];
    }
  }

  /** One event of the given kind for each IP that is new in `to`. */
  method Announce(from: set<string>, to: set<string>, kind: EventKind, at: Time) returns (events: seq<EndpointEvent>)
    ensures Announces(events, to - from, kind)
    ensures forall k :: 0 <= k < |events| ==> events[k].at == at
  {
    events := [];
    var rest := to;
    while rest != {}
      invariant rest <= to
      invariant Announces(events, to - rest - from, kind)
      invariant forall k :: 0 <= k < |events| ==> events[k].at == at
    {
      var ip :| ip in rest;
      ghost var done := to - rest - from;
      rest := rest - {ip};
      if ip !in from {
        AnnouncesOneMore(events, done, EndpointEvent(at, ip, kind));
        events := events + [EndpointEvent(at, ip, kind)];
        assert to - rest - from == done + {ip};
      } else {
        assert to - rest - from == done;
      }
    }
    assert to - rest - from == to - from;
  }

  /** One event for each IP that changed, whatever order the sets are walked in. */
  method Diff(before: set<string>, after: set<string>, at: Time) returns (events: seq<EndpointEvent>)
    ensures forall ip :: Kinds(events, ip) == Change(before, after, ip)
    ensures forall k :: 0 <= k < |events| ==> events[k].at == at
  {
    var added := Announce(before, after, EventKind.Ready, at);
    var gone := Announce(after, before, Removed, at);
    events := added + gone;
    forall ip
      ensures Kinds(events, ip) == Change(before, after, ip)
    {
      KindsConcat(added, gone, ip);
    }
  }

  /** The index holds exactly the latest versions in the log. */
  ghost predicate Indexes(slices: map<string, map<string, bool>>, log: seq<SliceEvent>) {
    && (forall name :: name in slices <==> Current(log, name).Some?)
    && (forall name, ip :: name in slices ==>
          ((ip in slices[name] && slices[name][ip]) <==> ReadyIn(Current(log, name).value, ip)))
  }

  lemma IndexOneMore(slices: map<string, map<string, bool>>, log: seq<SliceEvent>, e: SliceEvent, m: map<string, bool>)
    requires Indexes(slices, log)
    requires !e.deleted ==> forall ip :: (ip in m && m[ip]) <==> ReadyIn(e.endpoints, ip)
    ensures Indexes(if e.deleted then slices - {e.name} else slices[e.name := m], log + [e])
  {
    assert (log + [e])[..|log|] == log;
  }

  lemma UnionIsReady(slices: map<string, map<string, bool>>, log: seq<SliceEvent>, ip: string)
    requires Indexes(slices, log)
    ensures ReadyInSome(slices, slices.Keys, ip) <==> IsReady(log, ip)
  {
    if ReadyInSome(slices, slices.Keys, ip) {
      var name :| name in slices && ip in slices[name] && slices[name][ip];
      assert Current(log, name).Some? && ReadyIn(Current(log, name).value, ip);
    }
    if IsReady(log, ip) {
      var name :| Current(log, name).Some? && ReadyIn(Current(log, name).value, ip);
      assert name in slices.Keys;
    }
  }

  /** Every IP's events alternate, starting with Ready, and end in its present state. */
  ghost predicate Tells(emitted: seq<EndpointEvent>, ready: set<string>) {
    forall ip :: Alternates(Kinds(emitted, ip)) && (ip in ready <==> |Kinds(emitted, ip)| % 2 == 1)
  }

  lemma TellsMore(before: set<string>, after: set<string>, emitted: seq<EndpointEvent>, events: seq<EndpointEvent>)
    requires Tells(emitted, before)
    requires forall ip :: Kinds(events, ip) == Change(before, after, ip)
    ensures Tells(emitted + events, after)
  {
    forall ip
      ensures Alternates(Kinds(emitted + events, ip)) && (ip in after <==> |Kinds(emitted + events, ip)| % 2 == 1)
    {
      KindsConcat(emitted, events, ip);
      assert Kinds(events, ip) == Change(before, after, ip);
      AlternatesOneMore(Kinds(emitted, ip), ip in before, ip in after);
    }
  }

  lemma AlternatesOneMore(ks: seq<EventKind>, before: bool, after: bool)
    requires Alternates(ks) && (before <==> |ks| % 2 == 1)
    ensures var ks' := ks + if after && !before then [EventKind.Ready] else if before && !after then [Removed] else [];
            Alternates(ks') && (after <==> |ks'| % 2 == 1)
  {
  }

  /** Replaying everything emitted, from nothing, rebuilds the ready set. */
  lemma ReplayRebuilds(emitted: seq<EndpointEvent>, ready: set<string>)
    requires Tells(emitted, ready)
    ensures Replay({}, emitted) == ready
  {
    forall ip
      ensures ip in Replay({}, emitted) <==> ip in ready
    {
      ReplayFollowsKinds({}, emitted, ip);
      var ks := Kinds(emitted, ip);
      if ks != [] {
        assert ks[|ks| - 1].Ready? <==> (|ks| - 1) % 2 == 0;
      }
    }
  }

  class Tracker {
    var slices: map<string, map<string, bool>>
    var ready: set<string>
    ghost var log: seq<SliceEvent>
    ghost var emitted: seq<EndpointEvent>

    /** The index agrees with the log, and the events emitted so far tell the same story. */
    ghost predicate Valid()
      reads this
    {
      && Indexes(slices, log)
      && (forall ip :: ip in ready <==> IsReady(log, ip))
      && Tells(emitted, ready)
      && Replay({}, emitted) == ready
    }

    constructor ()
      ensures Valid() && log == [] && emitted == [] && ready == {}
    {
      slices, ready, log, emitted := map[], {}, [], [];
    }

    method Apply(name: string, endpoints: seq<Endpoint>, deleted: bool, at: Time) returns (events: seq<EndpointEvent>)
      requires Valid()
      modifies this
      ensures Valid()
      ensures log == old(log) + [SliceEvent(name, endpoints, deleted)]
      ensures emitted == old(emitted) + events
      ensures forall ip :: Kinds(events, ip) == Change(old(ready), ready, ip)
      ensures forall k :: 0 <= k < |events| ==> events[k].at == at
    {
      ghost var e := SliceEvent(name, endpoints, deleted);
      if deleted {
        IndexOneMore(slices, log, e, map[]);
        slices := slices - {name};
      } else {
        var m := ReadSlice(endpoints);
        IndexOneMore(slices, log, e, m);
        slices := slices[name := m];
      }
      log := log + [e];

      var next := Union(slices);
      forall ip
        ensures ip in next <==> IsReady(log, ip)
      {
        UnionIsReady(slices, log, ip);
      }

      events := Diff(ready, next, at);
      TellsMore(ready, next, emitted, events);
      emitted := emitted + events;
      ready := next;
      ReplayRebuilds(emitted, ready);
    }
  }
}
