/** The telemetry server's index of online relayers (`AppState`). */
module Telemetry {
  import opened Ismp

  type Address = Bytes

  type Claim = (StateMachine, Address)

  /** Networks with their active relayers, and each socket's claims. */
  datatype Online = Online(networks: map<StateMachine, set<Address>>, clients: map<nat, seq<Claim>>)

  function Entry(networks: map<StateMachine, set<Address>>, network: StateMachine): set<Address> {
    if network in networks then networks[network] else {}
  }

  /** The relayers `online` reports for a network. */
  predicate Reported(o: Online, claim: Claim) { claim.1 in Entry(o.networks, claim.0) }

  /** Some connected socket makes this claim. */
  ghost predicate Live(clients: map<nat, seq<Claim>>, claim: Claim) {
    exists id :: id in clients && claim in clients[id]
  }

  /** The effect of a connection: its claims are reported besides everything reported before. */
  ghost predicate Connects(o: Online, id: nat, claims: seq<Claim>, o': Online) {
    && o'.clients == o.clients[id := claims]
    && forall c :: Reported(o', c) <==> Reported(o, c) || c in claims
  }

  /** The effect of a disconnection: none of its claims is reported any more. */
  ghost predicate Disconnects(o: Online, id: nat, o': Online) {
    && o'.clients == o.clients - {id}
    && forall c :: Reported(o', c) <==> Reported(o, c) && !(id in o.clients && c in o.clients[id])
  }

  class AppState {
    var networks: map<StateMachine, set<Address>>
    var clients: map<nat, seq<Claim>>

    function View(): Online
      reads this
    {
      Online(networks, clients)
    }

    constructor ()
      ensures View() == Online(map[], map[])
    {
      networks, clients := map[], map[];
    }

    method Insert(id: nat, claims: seq<Claim>)
      modifies this
      ensures Connects(old(View()), id, claims, View())
    {
      var i := 0;
      while i < |claims|
        invariant 0 <= i <= |claims|
        invariant clients == old(clients)
        invariant forall c :: Reported(View(), c) <==> Reported(old(View()), c) || c in claims[..i]
      {
        var network, address := claims[i].0, claims[i].1;
        assert claims[..i + 1] == claims[..i] + [claims[i]];
        networks := networks[network := Entry(networks, network) + {address}];
        i := i + 1;
      }
      assert claims[..|claims|] == claims;
      clients := clients[id := claims];
    }

    method Remove(id: nat)
      modifies this
      ensures Disconnects(old(View()), id, View())
    {
      if id !in clients {
        return;
      }
      var claims := clients[id];
      clients := clients - {id};
      var i := 0;
      while i < |claims|
        invariant 0 <= i <= |claims|
        invariant clients == old(clients) - {id}
        invariant forall c :: Reported(View(), c) <==> Reported(old(View()), c) && c !in claims[..i]
      {
        var network, address := claims[i].0, claims[i].1;
        assert claims[..i + 1] == claims[..i] + [claims[i]];
        if network in networks {
          networks := networks[network := networks[network] - {address}];
        }
        i := i + 1;
      }
      assert claims[..|claims|] == claims;
    }
  }

  // ----- every run -----

  datatype Event = Connect(id: nat, claims: seq<Claim>) | Disconnect(id: nat)

  /** Socket ids are never reused while connected. */
  ghost predicate Next(o: Online, e: Event, o': Online) {
    match e
    case Connect(id, claims) => id !in o.clients && Connects(o, id, claims, o')
    case Disconnect(id) => Disconnects(o, id, o')
  }

  ghost predicate Trace(states: seq<Online>, events: seq<Event>) {
    && |states| == |events| + 1
    && states[0] == Online(map[], map[])
    && forall i :: 0 <= i < |events| ==> Next(states[i], events[i], states[i + 1])
  }

  ghost predicate Sound(o: Online) { forall c :: Reported(o, c) ==> Live(o.clients, c) }

  ghost predicate Exact(o: Online) { forall c :: Reported(o, c) <==> Live(o.clients, c) }

  /** Some claim of socket `id` is also made by another connected socket. */
  ghost predicate Shares(o: Online, id: nat) {
    id in o.clients && exists c :: c in o.clients[id] && Live(o.clients - {id}, c)
  }

  lemma LiveSplits(clients: map<nat, seq<Claim>>, id: nat, c: Claim)
    ensures Live(clients, c) <==> Live(clients - {id}, c) || (id in clients && c in clients[id])
  {
    if Live(clients, c) && !(id in clients && c in clients[id]) {
      var other :| other in clients && c in clients[other];
      assert other in clients - {id};
    }
    if Live(clients - {id}, c) {
      var other :| other in clients - {id} && c in (clients - {id})[other];
      assert other in clients;
    }
  }

  lemma ConnectKeeps(o: Online, id: nat, claims: seq<Claim>, o': Online)
    requires id !in o.clients && Connects(o, id, claims, o')
    ensures Sound(o) ==> Sound(o')
    ensures Exact(o) ==> Exact(o')
  {
    assert o'.clients - {id} == o.clients;
    forall c
      ensures Live(o'.clients, c) <==> Live(o.clients, c) || c in claims
    {
      LiveSplits(o'.clients, id, c);
    }
  }

  lemma DisconnectSound(o: Online, id: nat, o': Online)
    requires Sound(o) && Disconnects(o, id, o')
    ensures Sound(o')
  {
    forall c | Reported(o', c)
      ensures Live(o'.clients, c)
    {
      LiveSplits(o.clients, id, c);
    }
  }

  /** The report stays exact through a disconnection if and only if nobody else makes the leaving
      socket's claims; otherwise a relayer that is still online disappears from it. */
  lemma DisconnectExactIff(o: Online, id: nat, o': Online)
    requires Exact(o) && Disconnects(o, id, o')
    ensures Exact(o') <==> !Shares(o, id)
  {
    forall c
      ensures Live(o.clients, c) <==> Live(o'.clients, c) || (id in o.clients && c in o.clients[id])
    {
      LiveSplits(o.clients, id, c);
    }
  }

  /** A run that loses a relayer: two sockets connect with the same claim, one leaves, and the other's claim
      is no longer reported. */
  lemma SharedClaimVanishes(a: nat, b: nat, claim: Claim, states: seq<Online>, events: seq<Event>)
    requires a != b
    requires events == [Connect(a, [claim]), Connect(b, [claim]), Disconnect(a)]
    requires var networks := map[claim.0 := {claim.1}];
             states == [Online(map[], map[]), Online(networks, map[a := [claim]]),
                        Online(networks, map[a := [claim], b := [claim]]),
                        Online(map[claim.0 := {}], map[b := [claim]])]
    ensures Trace(states, events)
    ensures Live(states[3].clients, claim) && !Reported(states[3], claim) && !Exact(states[3])
  {
    assert Next(states[0], events[0], states[1]);
    assert Next(states[1], events[1], states[2]);
    assert states[2].clients - {a} == map[b := [claim]];
    assert Next(states[2], events[2], states[3]);
    assert claim in states[3].clients[b];
  }

  /** No socket leaves while it shares a claim. */
  ghost predicate NoneShares(states: seq<Online>, events: seq<Event>)
    requires |states| == |events| + 1
  {
    forall i :: 0 <= i < |events| && events[i].Disconnect? ==> !Shares(states[i], events[i].id)
  }

  lemma NextReport(o: Online, e: Event, o': Online)
    requires Next(o, e, o')
    ensures Sound(o) ==> Sound(o')
    ensures Exact(o) ==> (Exact(o') <==> !(e.Disconnect? && Shares(o, e.id)))
  {
    match e
    case Connect(id, claims) => ConnectKeeps(o, id, claims, o');
    case Disconnect(id) =>
      if Sound(o) { DisconnectSound(o, id, o'); }
      if Exact(o) { DisconnectExactIff(o, id, o'); }
  }

  /** In every run only relayers with a connected socket are ever reported; and at every moment exactly those
      are, if and only if no socket leaves while sharing a claim. */
  lemma {:induction false} OnlineReport(states: seq<Online>, events: seq<Event>)
    requires Trace(states, events)
    ensures forall n :: 0 <= n <= |events| ==> Sound(states[n])
    ensures (forall n :: 0 <= n <= |events| ==> Exact(states[n])) <==> NoneShares(states, events)
    decreases |events|
  {
    if events == [] {
    } else {
      var n := |events| - 1;
      var states', events' := states[..n + 1], events[..n];
      OnlineReport(states', events');
      NextReport(states[n], events[n], states[n + 1]);
      assert Sound(states'[n]);
      if forall k :: 0 <= k <= |events| ==> Exact(states[k]) {
        forall k | 0 <= k <= n ensures Exact(states'[k]) { assert Exact(states[k]); }
        forall i | 0 <= i < |events| && events[i].Disconnect? ensures !Shares(states[i], events[i].id) {
          if i < n { assert !Shares(states'[i], events'[i].id); }
        }
      } else if NoneShares(states, events) {
        forall i | 0 <= i < n && events'[i].Disconnect? ensures !Shares(states'[i], events'[i].id) {
          assert !Shares(states[i], events[i].id);
        }
        forall k | 0 <= k <= n ensures Exact(states[k]) { assert Exact(states'[k]); }
      }
    }
  }
}
