/** The client's trigger table (members/nullnet-client/src/triggers.rs:64-224): which
    task may ask the server for a tunnel, who waits for it, and which installed
    steering a later message means. */
module Triggers {
  import opened Basics

  type Ip = nat
  type Token = nat
  datatype Key = Key(container: string, port: nat)

  /** 35 seconds, in nanoseconds. */
  const PENDING_TIMEOUT: nat := 35 * SECOND

  datatype Lifecycle =
    | Pending(since: nat, token: Token, ip: Ip)
    | Installed(ready: bool, vxlan: nat, overlay: Ip, ip: Ip, token: Token)

  type Table = map<Key, Lifecycle>

  datatype Claim = Start(token: Token) | Wait(token: Token) | Active

  predicate Expired(e: Lifecycle, now: nat) {
    e.Pending? && Since(now, e.since) >= PENDING_TIMEOUT
  }

  /** Whether a claim finds nobody at work on the key. */
  predicate Free(t: Table, k: Key, now: nat) {
    k !in t || Expired(t[k], now)
  }

  function Claimed(t: Table, k: Key, ip: Ip, now: nat, token: Token): Table {
    if Free(t, k, now) then t[k := Pending(now, token, ip)] else t
  }

  function ClaimResult(t: Table, k: Key, now: nat, token: Token): Claim {
    if Free(t, k, now) then Start(token)
    else if t[k].Installed? && t[k].ready then Active
    else Wait(t[k].token)
  }

  /** The entry keeps the token its waiters wait on. */
  function Prepared(t: Table, k: Key, vxlan: nat, overlay: Ip, ip: Ip, token: Token): Table {
    t[k := Installed(false, vxlan, overlay, ip, if k in t then t[k].token else token)]
  }

  predicate IsFor(t: Table, k: Key, vxlan: nat) {
    k in t && t[k].Installed? && t[k].vxlan == vxlan
  }

  function Readied(t: Table, k: Key): Table
    requires k in t && t[k].Installed?
  {
    t[k := t[k].(ready := true)]
  }

  function Forgotten(t: Table, k: Key, owner: Token): Table {
    if k in t && t[k].Pending? && t[k].token == owner then t - {k} else t
  }

  class TriggersState {
    var byKey: Table
    var nextToken: Token

    constructor ()
      ensures byKey == map[] && nextToken == 0
    {
      byKey, nextToken := map[], 0;
    }

    /** Elect one sender; everybody else is given the token to wait on. */
    method Claim(k: Key, ip: Ip, now: nat) returns (c: Claim)
      modifies this
      ensures c == ClaimResult(old(byKey), k, now, old(nextToken))
      ensures byKey == Claimed(old(byKey), k, ip, now, old(nextToken)) && nextToken == old(nextToken) + 1
    {
      var token := nextToken;
      nextToken := nextToken + 1;
      if k in byKey {
        match byKey[k] {
          case Installed(ready, _, _, _, notify) =>
            return if ready then Active else Wait(notify);
          case Pending(since, notify, _) =>
            if Since(now, since) < PENDING_TIMEOUT {
              return Wait(notify);
            }
        }
      }
      byKey := byKey[k := Pending(now, token, ip)];
      c := Start(token);
    }

    method MarkPrepared(k: Key, vxlan: nat, overlay: Ip, ip: Ip)
      modifies this
      ensures byKey == Prepared(old(byKey), k, vxlan, overlay, ip, old(nextToken)) && nextToken == old(nextToken) + 1
    {
      var token := if k in byKey then byKey[k].token else nextToken;
      nextToken := nextToken + 1;
      byKey := byKey - {k};
      byKey := byKey[k := Installed(false, vxlan, overlay, ip, token)];
    }

    /** Find the entry installed for the id, in whatever order the table is walked. */
    method FindInstalled(vxlan: nat) returns (found: Option<Key>)
      ensures found.Some? ==> IsFor(byKey, found.value, vxlan)
      ensures found.None? ==> forall k :: !IsFor(byKey, k, vxlan)
    {
      var keys := byKey.Keys;
      while keys != {}
        invariant keys <= byKey.Keys
        invariant forall k :: k in byKey && k !in keys ==> !IsFor(byKey, k, vxlan)
        decreases |keys|
      {
        var k :| k in keys;
        if byKey[k].Installed? && byKey[k].vxlan == vxlan {
          return Some(k);
        }
        keys := keys - {k};
      }
      found := None;
    }

    method MarkReady(vxlan: nat) returns (k: Option<Key>)
      modifies this
      ensures k.Some? <==> exists j :: IsFor(old(byKey), j, vxlan)
      ensures k.None? ==> byKey == old(byKey)
      ensures k.Some? ==> IsFor(old(byKey), k.value, vxlan) && byKey == Readied(old(byKey), k.value)
    {
      k := FindInstalled(vxlan);
      if k.Some? {
        byKey := byKey[k.value := byKey[k.value].(ready := true)];
      }
    }

    /** Drop only the caller's own pending claim; installed steering stays. */
    method ForgetPending(k: Key, owner: Token)
      modifies this
      ensures byKey == Forgotten(old(byKey), k, owner)
    {
      if k in byKey && byKey[k].Pending? && byKey[k].token == owner {
        byKey := byKey - {k};
      }
    }

    method RemoveByVxlan(vxlan: nat) returns (k: Option<Key>)
      modifies this
      ensures k.Some? <==> exists j :: IsFor(old(byKey), j, vxlan)
      ensures k.None? ==> byKey == old(byKey)
      ensures k.Some? ==> IsFor(old(byKey), k.value, vxlan) && byKey == old(byKey) - {k.value}
    {
      k := FindInstalled(vxlan);
      if k.Some? {
        byKey := byKey - {k.value};
      }
    }
  }

  // --------------------------------------------------------------------- every run

  datatype Op =
    | DoClaim(key: Key, ip: Ip, now: nat)
    | DoPrepare(key: Key, vxlan: nat, overlay: Ip, ip: Ip)
    | DoReady(key: Key)
    | DoForget(key: Key, owner: Token)
    | DoRemove(key: Key)

  /** Claims are numbered by when they are made. */
  ghost function Apply(t: Table, op: Op, i: nat): Table {
    match op
    case DoClaim(k, ip, now) => Claimed(t, k, ip, now, i)
    case DoPrepare(k, vxlan, overlay, ip) => Prepared(t, k, vxlan, overlay, ip, i)
    case DoReady(k) => if k in t && t[k].Installed? then Readied(t, k) else t
    case DoForget(k, owner) => Forgotten(t, k, owner)
    case DoRemove(k) => if k in t && t[k].Installed? then t - {k} else t
  }

  /** The table before operation `n`. */
  ghost function At(ops: seq<Op>, n: nat): Table
    requires n <= |ops|
  {
    if n == 0 then map[] else Apply(At(ops, n - 1), ops[n - 1], n - 1)
  }

  ghost predicate StartsAt(ops: seq<Op>, k: Key, i: nat) {
    i < |ops| && ops[i].DoClaim? && ops[i].key == k && Free(At(ops, i), k, ops[i].now)
  }

  ghost predicate Clocked(ops: seq<Op>) {
    forall i, j :: 0 <= i <= j < |ops| && ops[i].DoClaim? && ops[j].DoClaim? ==> ops[i].now <= ops[j].now
  }

  /** The entry for `k` is there before every operation from `i + 1` to `n`. */
  ghost predicate Kept(ops: seq<Op>, k: Key, i: nat, n: nat)
    requires n <= |ops|
  {
    forall j :: i < j <= n ==> k in At(ops, j)
  }

  lemma {:induction false} PendingIsRecent(ops: seq<Op>, k: Key, i: nat, n: nat)
    requires Clocked(ops) && StartsAt(ops, k, i) && i < n <= |ops| && Kept(ops, k, i, n)
    ensures At(ops, n)[k].Pending? ==> At(ops, n)[k].since >= ops[i].now
  {
    if n > i + 1 {
      PendingIsRecent(ops, k, i, n - 1);
      assert k in At(ops, n - 1);
    }
  }

  /** While a key's entry lasts, whatever becomes of it, two claims that both make
      their caller the sender are at least 35 seconds apart. */
  lemma SendersAreApart(ops: seq<Op>, k: Key, i: nat, j: nat)
    requires Clocked(ops) && StartsAt(ops, k, i) && StartsAt(ops, k, j) && i < j && Kept(ops, k, i, j)
    ensures ops[j].now - ops[i].now >= PENDING_TIMEOUT
  {
    PendingIsRecent(ops, k, i, j);
    assert k in At(ops, j);
  }

  /** A claimed entry goes only by its owner forgetting it, by being installed, or by
      expiring; an installed one only by being removed or installed again. */
  lemma OnlyOwnersEnd(t: Table, op: Op, i: nat, k: Key)
    requires k in t && (k !in Apply(t, op, i) || Apply(t, op, i)[k] != t[k])
    ensures op.key == k
    ensures
      t[k].Pending? ==>
        || op == DoForget(k, t[k].token)
        || op.DoPrepare?
        || (op.DoClaim? && Expired(t[k], op.now))
    ensures t[k].Installed? ==> op.DoRemove? || op.DoPrepare? || (op.DoReady? && !t[k].ready)
  {
  }

  /** Installing and activating keep the token, so whoever was told to wait since the
      claim is woken by this entry's activation. */
  lemma WaitersStayWithEntry(t: Table, op: Op, i: nat, k: Key)
    requires k in t && k in Apply(t, op, i)
    ensures Apply(t, op, i)[k].token == t[k].token || (op.DoClaim? && op.key == k && Expired(t[k], op.now))
  {
  }
}
