/** The controller as the source runs it: one bucket per host, updated in place
    (members/nullnet-server/src/congestion.rs:376-557), and admissions that need
    both ends (:636-741). */
module CongestionControl {
  import opened Basics
  import opened Pressures
  import opened HostRates
  import opened SetupPressures

  class HostRate {
    var rate: Option<nat>
    var tokens: real
    var lastRefill: nat
    var lastDenied: Option<nat>
    var completions: seq<nat>
    var seen: map<Source, nat>
    var healthy: nat

    ghost function Value(): Host
      reads this
    {
      Host(rate, tokens, lastRefill, lastDenied, completions, seen, healthy)
    }

    constructor (now: nat)
      ensures Value() == NewHost(now)
    {
      rate, tokens, lastRefill, lastDenied, completions, seen, healthy := None, 0.0, now, None, [], map[], 0;
    }

    method TrimCompletions(now: nat)
      modifies `completions
      ensures completions == Trimmed(old(completions), now)
    {
      while completions != [] && Since(now, completions[0]) > COMPLETION_HISTORY
        invariant Trimmed(completions, now) == Trimmed(old(completions), now)
        decreases |completions|
      {
        completions := completions[1..];
      }
    }

    method RecordCompletion(now: nat)
      modifies `completions
      ensures Value() == Record(old(Value()), now)
    {
      TrimCompletions(now);
      if completions != [] && Since(now, completions[|completions| - 1]) > RECOVERY_QUIET {
        completions := [];
      }
      completions := completions + [now];
    }

    method SustainedCompletions(now: nat) returns (sustained: bool)
      modifies `completions
      ensures completions == Trimmed(old(completions), now) && sustained == Sustained(completions, now)
    {
      TrimCompletions(now);
      sustained :=
        completions != [] && Since(now, completions[0]) >= RECOVERY_QUIET
        && Since(now, completions[|completions| - 1]) <= RECOVERY_QUIET;
    }

    method Deny(now: nat)
      modifies `lastDenied, `completions
      ensures Value() == Denied(old(Value()), now)
    {
      lastDenied, completions := Some(now), [];
    }

    method RefillTokens(now: nat)
      modifies `tokens, `lastRefill
      ensures Value() == Refill(old(Value()), now)
    {
      if rate.Some? {
        var filled := tokens + Income(rate.value, Since(now, lastRefill));
        tokens := if filled <= BUCKET_BURST then filled else BUCKET_BURST;
      }
      lastRefill := now;
    }

    method AnyFresh(readings: seq<Reading>) returns (changed: bool)
      ensures changed == Fresh(seen, readings)
    {
      changed := false;
      for i := 0 to |readings|
        invariant changed == Fresh(seen, readings[..i])
      {
        assert readings[..i + 1] == readings[..i] + [readings[i]];
        if readings[i].1.sequence > SeenUpTo(seen, readings[i].0) {
          assert readings[i] in readings[..i + 1];
          changed := true;
        }
      }
      assert readings[..|readings|] == readings;
    }

    method MarkSeen(readings: seq<Reading>)
      modifies `seen
      ensures seen == Marked(old(seen), readings)
    {
      for i := 0 to |readings|
        invariant seen == Marked(old(seen), readings[..i])
      {
        assert readings[..i + 1][..i] == readings[..i];
        seen := seen[readings[i].0 := readings[i].1.sequence];
      }
      assert readings[..|readings|] == readings;
    }

    static method Judgement(readings: seq<Reading>) returns (trend: Trend)
      ensures trend == VerdictOf(readings)
    {
      var congested, healthy := false, true;
      for i := 0 to |readings|
        invariant congested <==> exists r :: r in readings[..i] && r.1.trend == Congested
        invariant healthy <==> forall r :: r in readings[..i] ==> r.1.trend == Healthy
      {
        assert readings[..i + 1] == readings[..i] + [readings[i]];
        assert readings[i] in readings[..i + 1];
        congested := congested || readings[i].1.trend == Congested;
        healthy := healthy && readings[i].1.trend == Healthy;
      }
      assert readings[..|readings|] == readings;
      trend := if congested then Congested else if healthy then Healthy else Neutral;
    }

    /** A healthy verdict while a rate is set. */
    method ProbeUp(now: nat)
      requires rate.Some?
      modifies this
      ensures Value() == OnHealthy(old(Value()), now)
    {
      healthy := SatAdd(healthy, 1, U8_MAX);
      if healthy < RECOVERY_WINDOWS {
        return;
      }
      rate := Some(rate.value + 1);
      if lastDenied.Some? && Since(now, lastDenied.value) >= RECOVERY_QUIET && tokens >= BUCKET_BURST {
        var recovered := SustainedCompletions(now);
        if recovered {
          rate, tokens := None, 0.0;
        }
      }
    }

    method ApplyAll(readings: seq<Reading>, now: nat) returns (moved: Option<Transition>)
      modifies this
      ensures Value() == Apply(old(Value()), readings, now)
      ensures moved == Reported(old(Value()), Value())
    {
      ghost var h := Value();
      var changed := AnyFresh(readings);
      if !changed {
        return None;
      }
      MarkSeen(readings);
      var trend := Judgement(readings);
      match trend {
        case Congested =>
          var activating := rate != Some(0);
          rate, tokens, lastRefill := Some(0), 0.0, now;
          Deny(now);
          healthy := 0;
          moved := if activating then Some(Activated) else None;
        case Healthy =>
          moved := None;
          if rate.Some? {
            var starting := rate == Some(0);
            ProbeUp(now);
            if rate.None? {
              moved := Some(Recovered);
            } else if starting && rate != Some(0) {
              moved := Some(RecoveryStarted);
            }
          }
        case Neutral =>
          if rate == Some(0) {
            healthy := 0;
          }
          moved := None;
      }
    }
  }

  // --------------------------------------------------------------- both ends at once

  type Hosts = map<Ip, Host>

  function At(hosts: Hosts, ip: Ip, now: nat): Host {
    if ip in hosts then hosts[ip] else NewHost(now)
  }

  /** What bears on `host`: the proxy's own waiters, and setups at the destination. */
  function ReadingsFor(host: Ip, proxy: Ip, destination: Ip, waiting: Option<View>, setups: Option<View>): seq<Reading> {
    (if host == proxy && waiting.Some? then [(Proxy(proxy), waiting.value)] else [])
    + (if host == destination && setups.Some? then [(Setup(destination), setups.value)] else [])
  }

  datatype Request = Request(proxy: Ip, destination: Ip, waiting: Option<View>, setups: Option<View>, now: nat)

  predicate Involved(q: Request, ip: Ip) {
    ip == q.proxy || ip == q.destination
  }

  function JudgedFor(hosts: Hosts, q: Request, ip: Ip): Host {
    Judged(At(hosts, ip, q.now), ReadingsFor(ip, q.proxy, q.destination, q.waiting, q.setups), q.now)
  }

  /** A dedicated setup is admitted when both ends are ready for it. */
  predicate Admitted(hosts: Hosts, q: Request) {
    Ready(JudgedFor(hosts, q, q.proxy)) && Ready(JudgedFor(hosts, q, q.destination))
  }

  /** What an admission leaves of an involved host. */
  function Settled(hosts: Hosts, q: Request, ip: Ip): Host {
    SettledHost(JudgedFor(hosts, q, ip), Admitted(hosts, q), q.now)
  }

  function AfterAdmission(hosts: Hosts, q: Request): Hosts {
    hosts[q.proxy := Settled(hosts, q, q.proxy)][q.destination := Settled(hosts, q, q.destination)]
  }

  function AfterCompletion(hosts: Hosts, proxy: Ip, destination: Ip, now: nat): Hosts {
    hosts[proxy := Record(At(hosts, proxy, now), now)][destination := Record(At(hosts, destination, now), now)]
  }

  /** The change of mode that judging a host brings, if any. */
  function MovedBy(hosts: Hosts, q: Request, ip: Ip): seq<(Ip, Transition)> {
    var change := Reported(Refill(At(hosts, ip, q.now), q.now), JudgedFor(hosts, q, ip));
    if change.Some? then [(ip, change.value)] else []
  }

  function AllMoved(hosts: Hosts, q: Request): seq<(Ip, Transition)> {
    MovedBy(hosts, q, q.proxy) + if q.destination != q.proxy then MovedBy(hosts, q, q.destination) else []
  }

  function AllJudged(hosts: Hosts, q: Request): Hosts {
    hosts[q.proxy := JudgedFor(hosts, q, q.proxy)][q.destination := JudgedFor(hosts, q, q.destination)]
  }

  function SettledHost(h: Host, dedicated: bool, now: nat): Host {
    if dedicated then Charged(h) else DeniedIfShort(h, now)
  }

  function AllSettled(hosts: Hosts, q: Request, dedicated: bool): Hosts
    requires q.proxy in hosts && q.destination in hosts
  {
    hosts[q.proxy := SettledHost(hosts[q.proxy], dedicated, q.now)]
         [q.destination := SettledHost(hosts[q.destination], dedicated, q.now)]
  }

  lemma AdmissionIsTwoPhases(hosts: Hosts, q: Request, judged: Hosts)
    requires judged == AllJudged(hosts, q)
    ensures q.proxy in judged && q.destination in judged
    ensures Admitted(hosts, q) == (Ready(judged[q.proxy]) && Ready(judged[q.destination]))
    ensures AfterAdmission(hosts, q) == AllSettled(judged, q, Admitted(hosts, q))
  {
  }

  class CongestionController {
    var hosts: Hosts
    /** One detector for the waiters of each proxy, one for the setups at each host. */
    var proxies: map<Ip, Pressure>
    var setups: map<Ip, SetupPressure>

    constructor ()
      ensures hosts == map[] && proxies == map[] && setups == map[]
    {
      hosts, proxies, setups := map[], map[], map[];
    }

    /** A proxy's load sample goes to its own detector, which the first one makes. */
    method ObserveProxy(proxy: Ip, load: LoadSample, waitMicros: u64, now: nat)
      requires proxy in proxies ==> proxies[proxy].Valid()
      modifies `proxies, if proxy in proxies then {proxies[proxy]} else {}
      ensures proxy in proxies && proxies[proxy].Valid() && proxies[proxy].totals.last.epoch == load.epoch
      ensures proxies == old(proxies)[proxy := proxies[proxy]]
      ensures
        var o, p := Obs(now, load, Some(waitMicros)), proxies[proxy];
        if proxy !in old(proxies) then
          fresh(p) && p.past.log == [o] && p.sequence == 0 && !p.stalledIsGrowing && p.carryBoundaryLatency
        else
          && p == old(proxies[proxy])
          && if load.epoch != old(proxies[proxy].totals.last.epoch) then
               p.past == Afresh(old(proxies[proxy].past), o) && p.sequence == old(proxies[proxy].sequence) + 1
             else if load.arrivals < old(proxies[proxy].totals.last.arrivals)
                  || load.completions < old(proxies[proxy].totals.last.completions) then
               unchanged(p)
             else
               && p.past.log == old(proxies[proxy].past.log) + [o] && p.past.earlier == old(proxies[proxy].past.earlier)
               && p.sequence == old(proxies[proxy].sequence) + |p.past.ended| - |old(proxies[proxy].past.ended)|
    {
      if proxy in proxies {
        proxies[proxy].Observe(now, load, Some(waitMicros));
      } else {
        var p := new Pressure(now, load, Some(waitMicros), false, true);
        proxies := proxies[proxy := p];
      }
    }

    /** An attempt is counted at its host, whose counters the first one makes. */
    method StartSetup(host: Ip, now: nat)
      requires host in setups ==> setups[host].Valid()
      modifies `setups, if host in setups then {setups[host], setups[host].pressure} else {}
      ensures host in setups && setups[host].Valid()
      ensures setups == old(setups)[host := setups[host]]
      ensures
        var s := setups[host];
        var o := Obs(now, Sample(s.counts), None);
        if host in old(setups) then
          && s == old(setups[host]) && s.counts == Begin(old(setups[host].counts))
          && s.pressure.past.log == old(setups[host].pressure.past.log) + [o]
        else
          && fresh(s) && s.counts == Begin(NO_ATTEMPTS)
          && s.pressure.past.log == [Obs(now, Sample(NO_ATTEMPTS), None), o]
    {
      if host !in setups {
        var s := new SetupPressure(now);
        setups := setups[host := s];
      }
      setups[host].Started(now);
    }

    /** An attempt is dropped: it is counted at its host, and its latency observed. */
    method EndSetup(host: Ip, now: nat, started: nat)
      requires host in setups && setups[host].Valid()
      modifies setups[host], setups[host].pressure
      ensures setups[host].Valid() && setups[host].counts == Finish(old(setups[host].counts))
      ensures
        setups[host].pressure.past.log
        == old(setups[host].pressure.past.log)
           + [Obs(now, Sample(setups[host].counts), Some(Micros(Since(now, started))))]
    {
      setups[host].Completed(now, Since(now, started));
    }

    /** The request as the detectors stand. */
    function RequestNow(proxy: Ip, destination: Ip, now: nat): Request
      reads this, proxies.Values, setups.Values, set s | s in setups.Values :: s.pressure
    {
      Request(proxy, destination,
              if proxy in proxies then Some(View(proxies[proxy].sequence, proxies[proxy].totals.trend)) else None,
              if destination in setups
              then Some(View(setups[destination].pressure.sequence, setups[destination].pressure.totals.trend)) else None,
              now)
    }

    /** Decide on a dedicated setup as the detectors stand. */
    method AllowDedicated(proxy: Ip, destination: Ip, now: nat) returns (dedicated: bool, moved: seq<(Ip, Transition)>)
      modifies `hosts
      ensures
        var q := old(RequestNow(proxy, destination, now));
        && dedicated == Admitted(old(hosts), q) && moved == AllMoved(old(hosts), q)
        && hosts == AfterAdmission(old(hosts), q)
    {
      dedicated, moved := Admission(RequestNow(proxy, destination, now));
    }

    /** Judge one host by the readings that bear on it, and say if its mode changed. */
    method JudgeOne(q: Request, host: Ip) returns (moved: seq<(Ip, Transition)>)
      modifies `hosts
      ensures hosts == old(hosts)[host := JudgedFor(old(hosts), q, host)]
      ensures moved == MovedBy(old(hosts), q, host)
    {
      var h := Refill(At(hosts, host, q.now), q.now);
      var judged := Apply(h, ReadingsFor(host, q.proxy, q.destination, q.waiting, q.setups), q.now);
      var change := Reported(h, judged);
      moved := if change.Some? then [(host, change.value)] else [];
      hosts := hosts[host := judged];
    }

    method SettleOne(host: Ip, dedicated: bool, now: nat)
      requires host in hosts
      modifies `hosts
      ensures hosts == old(hosts)[host := SettledHost(old(hosts)[host], dedicated, now)]
    {
      hosts := hosts[host := if dedicated then Charged(hosts[host]) else DeniedIfShort(hosts[host], now)];
    }

    /** Judge the one or two hosts involved. */
    method JudgeInvolved(q: Request) returns (moved: seq<(Ip, Transition)>)
      modifies `hosts
      ensures hosts == AllJudged(old(hosts), q) && moved == AllMoved(old(hosts), q)
    {
      moved := JudgeOne(q, q.proxy);
      if q.destination != q.proxy {
        var more := JudgeOne(q, q.destination);
        moved := moved + more;
      }
    }

    method SettleInvolved(q: Request, dedicated: bool)
      requires q.proxy in hosts && q.destination in hosts
      modifies `hosts
      ensures hosts == AllSettled(old(hosts), q, dedicated)
    {
      SettleOne(q.proxy, dedicated, q.now);
      if q.destination != q.proxy {
        SettleOne(q.destination, dedicated, q.now);
      }
    }

    /** Judge the hosts involved, then charge all of them or none. */
    method Admission(q: Request) returns (dedicated: bool, moved: seq<(Ip, Transition)>)
      modifies `hosts
      ensures dedicated == Admitted(old(hosts), q)
      ensures hosts == AfterAdmission(old(hosts), q)
      ensures moved == AllMoved(old(hosts), q)
    {
      moved := JudgeInvolved(q);
      AdmissionIsTwoPhases(old(hosts), q, hosts);
      dedicated := Ready(hosts[q.proxy]) && Ready(hosts[q.destination]);
      SettleInvolved(q, dedicated);
    }

    method RecordDedicatedCompletion(proxy: Ip, destination: Ip, now: nat)
      modifies `hosts
      ensures hosts == AfterCompletion(old(hosts), proxy, destination, now)
    {
      hosts := hosts[proxy := Record(At(hosts, proxy, now), now)];
      if proxy != destination {
        hosts := hosts[destination := Record(At(hosts, destination, now), now)];
      }
    }
  }
}
