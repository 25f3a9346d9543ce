/** Brute-force detection over failed logins, by address and by user name. */
module CredentialDefense {
  import opened Basics
  import opened SlidingWindow

  datatype Event = Failure(ip: string, user: string, now: Time) | Check(ip: string, user: string, now: Time)

  datatype State = State(byIp: map<string, seq<Time>>, byUser: map<string, seq<Time>>)

  function Append(records: map<string, seq<Time>>, key: string, now: Time): map<string, seq<Time>> {
    records[key := Get(records, key) + [now]]
  }

  function Pruned(records: map<string, seq<Time>>, key: string, cutoff: Time): map<string, seq<Time>> {
    records[key := After(Get(records, key), cutoff)]
  }

  /** Failures accumulate unpruned; a check prunes the lists it looks at. Without a user name the user lists are left
      alone. */
  function Step(s: State, e: Event, window: Time): State {
    match e
    case Failure(ip, user, now) =>
        State(Append(s.byIp, ip, now), if user == "" then s.byUser else Append(s.byUser, user, now))
    case Check(ip, user, now) =>
      State(Pruned(s.byIp, ip, now - window), if user == "" then s.byUser else Pruned(s.byUser, user, now - window))
  }

  function Run(events: seq<Event>, window: Time): State {
    if events == [] then State(map[], map[])
    else Step(Run(events[..|events| - 1], window), events[|events| - 1], window)
  }

  /** The flag a check raises, read off the lists it leaves behind. */
  function Flag(s: State, ip: string, user: string, threshold: int): bool {
    |Get(s.byIp, ip)| >= threshold || (if user == "" then 0 else |Get(s.byUser, user)|) >= threshold
  }

  /** All failures ever recorded against an address. */
  function IpFailures(events: seq<Event>, ip: string): seq<Time> {
    if events == [] then []
    else
      var last := events[|events| - 1];
      IpFailures(events[..|events| - 1], ip) + if last.Failure? && last.ip == ip then [last.now] else []
  }

  /** All failures ever recorded against a user name. */
  function UserFailures(events: seq<Event>, user: string): seq<Time> {
    if events == [] then []
    else
      var last := events[|events| - 1];
      UserFailures(events[..|events| - 1], user) + if last.Failure? && last.user == user then [last.now] else []
  }

  predicate Monotone(events: seq<Event>) {
    forall i, j | 0 <= i < j < |events| :: events[i].now <= events[j].now
  }

  lemma {:induction false} MonotonePrefix(events: seq<Event>)
    requires Monotone(events) && events != []
    ensures var before, last := events[..|events| - 1], events[|events| - 1];
            Monotone(before) && (before != [] ==> before[|before| - 1].now <= last.now)
  {
  }

  /** One event acts on a list as it acts on the history, seen from any later cutoff. */
  lemma {:induction false} ListStep(list: seq<Time>, history: seq<Time>, cutoff: Time, now: Time, purge: Time)
    requires After(list, cutoff) == After(history, cutoff) && purge <= cutoff
    ensures After(list + [now], cutoff) == After(history + [now], cutoff)
    ensures After(After(list, purge), cutoff) == After(history, cutoff)
  {
    AfterConcat(list, [now], cutoff);
    AfterConcat(history, [now], cutoff);
    AfterAfter(list, purge, cutoff);
  }

  lemma {:induction false} EventStep(events: seq<Event>, window: Time, ip: string, user: string)
    requires events != [] && user != ""
    ensures var before, last := events[..|events| - 1], events[|events| - 1];
            var s, s' := Run(before, window), Run(events, window);
            && Get(s'.byIp, ip) == (if last.ip != ip then Get(s.byIp, ip)
                                    else if last.Failure? then Get(s.byIp, ip) + [last.now]
                                        else After(Get(s.byIp, ip), last.now - window))
            && Get(s'.byUser, user) == (if last.user != user then Get(s.byUser, user)
                                        else if last.Failure? then Get(s.byUser, user) + [last.now]
                                            else After(Get(s.byUser, user), last.now - window))
            && IpFailures(events, ip) == (if last.Failure? && last.ip == ip then IpFailures(before, ip) + [last.now]
                 else IpFailures(before, ip))
            && UserFailures(events, user)
                 == (if last.Failure? && last.user == user then UserFailures(before, user) + [last.now]
                     else UserFailures(before, user))
  {
  }

  lemma NoEvents(window: Time, ip: string, user: string)
    ensures Get(Run([], window).byIp, ip) == IpFailures([], ip)
            && Get(Run([], window).byUser, user) == UserFailures([], user)
  {
  }

  /** Seen from any current or future cutoff, the pruned lists are the full histories. */
  lemma {:induction false} ListsAreExact(events: seq<Event>, window: Time, ip: string, user: string, cutoff: Time)
    requires Monotone(events) && user != "" && (events != [] ==> events[|events| - 1].now - window <= cutoff)
    ensures After(Get(Run(events, window).byIp, ip), cutoff) == After(IpFailures(events, ip), cutoff)
    ensures After(Get(Run(events, window).byUser, user), cutoff) == After(UserFailures(events, user), cutoff)
  {
    hide After, Run, IpFailures, UserFailures, Monotone;
    if events == [] {
      NoEvents(window, ip, user);
    } else {
      var before, last := events[..|events| - 1], events[|events| - 1];
      MonotonePrefix(events);
      ListsAreExact(before, window, ip, user, cutoff);
      EventStep(events, window, ip, user);
      ListStep(Get(Run(before, window).byIp, ip), IpFailures(before, ip), cutoff, last.now, last.now - window);
      ListStep(Get(Run(before, window).byUser, user), UserFailures(before, user), cutoff, last.now, last.now - window);
    }
  }

  /** A check flags exactly when the whole history holds `threshold` failures of the address,
      or of the named user, in the window that ends at the check. */
  lemma {:induction false} CheckIsExact(events: seq<Event>, window: Time, threshold: int)
    requires Monotone(events) && events != [] && events[|events| - 1].Check?
    ensures var last := events[|events| - 1];
            Flag(Run(events, window), last.ip, last.user, threshold)
            <==> || |After(IpFailures(events, last.ip), last.now - window)| >= threshold
                 || (last.user != "" && |After(UserFailures(events, last.user), last.now - window)| >= threshold)
  {
    hide After, Run, IpFailures, UserFailures, Monotone;
    var before, last := events[..|events| - 1], events[|events| - 1];
    var user := if last.user == "" then "unnamed" else last.user;
    MonotonePrefix(events);
    ListsAreExact(before, window, last.ip, user, last.now - window);
    EventStep(events, window, last.ip, user);
  }

  // ---------------------------------------------------------------- the defense object

  class CredentialDefense {
    const failureThreshold: int
    const window: Time
    var ipFailures: map<string, seq<Time>>
    var userFailures: map<string, seq<Time>>

    constructor (failureThreshold: int, window: Time)
      ensures this.failureThreshold == failureThreshold && this.window == window && View() == State(map[], map[])
    {
      this.failureThreshold, this.window := failureThreshold, window;
      ipFailures, userFailures := map[], map[];
    }

    function View(): State
      reads this
    {
      State(ipFailures, userFailures)
    }

    method RecordFailure(ip: string, user: string, now: Time)
      modifies this
      ensures View() == Step(old(View()), Failure(ip, user, now), window)
    {
      ipFailures := ipFailures[ip := (if ip in ipFailures then ipFailures[ip] else []) + [now]];
      if user != "" {
        userFailures := userFailures[user := (if user in userFailures then userFailures[user] else []) + [now]];
      }
    }

    method CheckStatus(ip: string, user: string, now: Time) returns (flagged: bool, threat: int)
      modifies this
      ensures View() == Step(old(View()), Check(ip, user, now), window)
      ensures flagged == Flag(View(), ip, user, failureThreshold) && threat == if flagged then 95 else 0
    {
      var ipTimes := Purge(if ip in ipFailures then ipFailures[ip] else [], now - window);
      ipFailures := ipFailures[ip := ipTimes];
      var userTimes := [];
      if user != "" {
        userTimes := Purge(if user in userFailures then userFailures[user] else [], now - window);
        userFailures := userFailures[user := userTimes];
      }
      threat := 0;
      if |ipTimes| >= failureThreshold {
        threat := Max(threat, 95);
      }
      if |userTimes| >= failureThreshold {
        threat := Max(threat, 95);
      }
      flagged := threat >= 90;
    }
  }
}
