/** The registry of edges that concurrent chain setups share
    (members/nullnet-server/src/services/clients.rs:15-65,
    members/nullnet-server/src/services/service_info.rs:568-610, :774-815) and
    the operations on it of `setup_edge` and `run_net_chain_setup`
    (members/nullnet-server/src/nullnet_grpc_impl.rs:2277-2360, :2449-2514, :2709-2775). */
module EdgeRegistries {
  /** An edge is named by who uses it and the service it leads to. */
  datatype Key = Key(client: nat, service: nat)

  type Token = nat
  type NetId = nat

  /** A reservation carries its builder's one reference. `born` tells apart the
      edges built one after another under the same key; no operation reads it. */
  datatype Entry =
    | Reserved(token: Token)
    | Live(netId: NetId, refs: nat, born: nat)

  type Registry = map<Key, Entry>

  /** One edge a chain has set up, and so holds a reference to. */
  datatype Hold = Hold(key: Key, netId: NetId, born: nat)

  /** Whether a hold is taken for one on the live edge there: `byId` if the net id is
      compared, as when a failed setup is unwound, and not when a completed chain's
      references are spent by walking its keys. */
  predicate Matches(r: Registry, h: Hold, byId: bool) {
    h.key in r && r[h.key].Live? && (byId ==> r[h.key].netId == h.netId)
  }

  /** Give one reference back; the last one takes the edge down. */
  function Decremented(r: Registry, k: Key): Registry {
    if k !in r || r[k].Reserved? then r
    else if r[k].refs <= 1 then r - {k}
    else r[k := r[k].(refs := r[k].refs - 1)]
  }

  /** A chain hands its edges back, one by one, skipping those it does not match. */
  function Unwound(r: Registry, edges: seq<Hold>, byId: bool): Registry {
    if edges == [] then r
    else Unwound(if Matches(r, edges[0], byId) then Decremented(r, edges[0].key) else r, edges[1..], byId)
  }

  datatype Claim = Reused(netId: NetId, born: nat) | Wait(token: Token) | Mine | Refused

  /** `registered`: the service is; `placeable`: a replica can be picked and is there. */
  function Claimed(r: Registry, k: Key, token: Token, registered: bool, placeable: bool): (Registry, Claim) {
    if !registered then (r, Refused)
    else if k !in r then if placeable then (r[k := Reserved(token)], Mine) else (r, Refused)
    else
      match r[k]
      case Live(netId, refs, born) => (r[k := Live(netId, refs + 1, born)], Reused(netId, born))
      case Reserved(other) => (r, Wait(other))
  }

  predicate Owns(r: Registry, k: Key, token: Token) {
    k in r && r[k] == Reserved(token)
  }

  function Released(r: Registry, k: Key, token: Token): Registry {
    if Owns(r, k, token) then r - {k} else r
  }

  /** The reservation becomes an edge, its one reference staying; if the replica has
      gone meanwhile (`landed` is false) it is dropped instead. */
  function Promoted(r: Registry, k: Key, token: Token, netId: NetId, born: nat, landed: bool): Registry {
    if Owns(r, k, token) && landed then r[k := Live(netId, 1, born)] else Released(r, k, token)
  }

  class EdgeRegistry {
    var entries: Registry

    constructor ()
      ensures entries == map[]
    {
      entries := map[];
    }

    /** Take a reference to a live edge, find out who is building it, or reserve it. */
    method ClaimEdge(k: Key, token: Token, registered: bool, placeable: bool) returns (c: Claim)
      modifies this
      ensures (entries, c) == Claimed(old(entries), k, token, registered, placeable)
    {
      if !registered {
        return Refused;
      }
      if k in entries {
        match entries[k] {
          case Live(netId, refs, born) =>
            entries := entries[k := Live(netId, refs + 1, born)];
            c := Reused(netId, born);
          case Reserved(other) =>
            c := Wait(other);
        }
      } else if placeable {
        entries := entries[k := Reserved(token)];
        c := Mine;
      } else {
        c := Refused;
      }
    }

    method RemovePendingIf(k: Key, token: Token)
      modifies this
      ensures entries == Released(old(entries), k, token)
    {
      if k in entries && entries[k] == Reserved(token) {
        entries := entries - {k};
      }
    }

    method Promote(k: Key, token: Token, netId: NetId, born: nat, landed: bool) returns (promoted: bool)
      modifies this
      ensures promoted == (Owns(old(entries), k, token) && landed)
      ensures entries == Promoted(old(entries), k, token, netId, born, landed)
    {
      promoted := k in entries && entries[k] == Reserved(token) && landed;
      if promoted {
        entries := entries[k := Live(netId, 1, born)];
      } else {
        RemovePendingIf(k, token);
      }
    }

    method DecrementChain(k: Key)
      modifies this
      ensures entries == Decremented(old(entries), k)
    {
      if k in entries && entries[k].Live? {
        if entries[k].refs <= 1 {
          entries := entries - {k};
        } else {
          entries := entries[k := entries[k].(refs := entries[k].refs - 1)];
        }
      }
    }

    /** A failed or ownerless setup gives back what it took. */
    method Unwind(edges: seq<Hold>)
      modifies this
      ensures entries == Unwound(old(entries), edges, true)
    {
      for i := 0 to |edges|
        invariant Unwound(entries, edges[i..], true) == Unwound(old(entries), edges, true)
      {
        assert edges[i..][1..] == edges[i + 1..];
        if Matches(entries, edges[i], true) {
          DecrementChain(edges[i].key);
        }
      }
    }

    /** The walk that ends a completed chain, which asks for live edges by key only. */
    method Spend(edges: seq<Hold>)
      modifies this
      ensures entries == Unwound(old(entries), edges, false)
    {
      for i := 0 to |edges|
        invariant Unwound(entries, edges[i..], false) == Unwound(old(entries), edges, false)
      {
        assert edges[i..][1..] == edges[i + 1..];
        DecrementChain(edges[i].key);
      }
    }
  }
}
