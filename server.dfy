/**
 * The request handlers as methods on one object that owns the globals of
 * the simulation (cursor, gate, board and event log). Each method is
 * proved to agree with the corresponding function of Engine.
 */
module Server {
  import opened Wrappers
  import opened Catalog
  import opened Engine

  /** One record of the per-team event log; the timestamp is supplied by the caller. */
  datatype LogEntry = LogEntry(timestamp: string, eventId: string, eventTitle: string, response: Option<string>)

  /** `log_event`: append to a known team's list; an unknown team leaves the log as it is. */
  function AppendEvent(log: map<string, seq<LogEntry>>, team: string, e: LogEntry): (r: map<string, seq<LogEntry>>)
    ensures r.Keys == log.Keys
    ensures team in log ==> r[team] == log[team] + [e]
    ensures forall t :: t in log && t != team ==> r[t] == log[t]
  {
    if team in log then log[team := log[team] + [e]] else log
  }

  class Simulation {
    const timeline: seq<Month>
    const crisisBank: seq<Crisis>
    const adminToken: Option<string>

    var currentMonth: nat
    var newsIndex: nat
    var triggeredCrises: set<string>
    var lastCrisisTime: int
    var countdownDuration: int
    var activeCrises: map<string, Option<Crisis>>
    var eventLog: map<string, seq<LogEntry>>

    /** The globals of the state machine as one value. */
    function Snapshot(): State
      reads this
    {
      State(currentMonth, newsIndex, triggeredCrises, lastCrisisTime, countdownDuration, activeCrises)
    }

    ghost predicate Valid()
      reads this
    {
      Engine.Valid(timeline, Snapshot()) && eventLog.Keys == TeamSet
    }

    /** Process start: the tables as given, the cursor at the first month, nothing fired, every slot and log empty. */
    constructor (timeline: seq<Month>, crisisBank: seq<Crisis>, adminToken: Option<string>)
      requires 0 < |timeline|
      ensures Valid()
      ensures this.timeline == timeline && this.crisisBank == crisisBank && this.adminToken == adminToken
      ensures Snapshot() == Initial(timeline)
      ensures forall t :: t in TeamSet ==> eventLog[t] == []
    {
      this.timeline := timeline;
      this.crisisBank := crisisBank;
      this.adminToken := adminToken;
      currentMonth := 0;
      newsIndex := 0;
      triggeredCrises := {};
      lastCrisisTime := 0;
      countdownDuration := InitialCountdown;
      activeCrises := map t | t in TeamSet :: None;
      eventLog := map t | t in TeamSet :: [];
    }

    /** The month rollover of the feed: skip exhausted months while a later one exists. */
    method Rollover()
      requires Valid()
      modifies this
      ensures Valid()
      ensures (currentMonth, newsIndex) == Settle(timeline, old(currentMonth), old(newsIndex))
      ensures Snapshot() == old(Snapshot()).(month := currentMonth, index := newsIndex)
      ensures eventLog == old(eventLog)
    {
      // Each pass moves on to the next month, so the month position strictly increases.
      while newsIndex >= |timeline[currentMonth].entries| && currentMonth < |timeline| - 1
        invariant Valid()
        invariant Settle(timeline, currentMonth, newsIndex) == Settle(timeline, old(currentMonth), old(newsIndex))
        invariant Snapshot() == old(Snapshot()).(month := currentMonth, index := newsIndex)
        invariant eventLog == old(eventLog)
        decreases |timeline| - currentMonth
      {
        currentMonth := currentMonth + 1;
        newsIndex := 0;
      }
    }

    /** The `for team in [...]` loop of an automatic fire: every team's slot gets the same crisis. */
    method AssignAllTeams(c: Crisis)
      requires Valid()
      modifies this
      ensures Valid()
      ensures activeCrises == AssignAll(old(activeCrises), c)
      ensures Snapshot() == old(Snapshot()).(board := activeCrises)
      ensures eventLog == old(eventLog)
    {
      for k := 0 to |Teams|
        invariant activeCrises.Keys == TeamSet
        invariant forall t :: t in Teams[..k] ==> activeCrises[t] == Some(c)
        invariant Snapshot() == old(Snapshot()).(board := activeCrises)
        invariant eventLog == old(eventLog)
      {
        activeCrises := activeCrises[Teams[k] := Some(c)];
      }
      assert Teams[..|Teams|] == Teams;
      TeamsAreTeamSet();
    }

    /** `get_news_feed` at time `now`. */
    method GetNewsFeed(now: int) returns (item: FeedItem)
      requires Valid()
      modifies this
      ensures Valid()
      ensures (Snapshot(), item) == Feed(timeline, crisisBank, old(Snapshot()), now)
      ensures eventLog == old(eventLog)
    {
      Rollover();
      var news := timeline[currentMonth].entries;
      if newsIndex < |news| {
        var entry := news[newsIndex];
        newsIndex := newsIndex + 1;
        ghost var served := Snapshot();
        var trigger := entry.trigger;
        if trigger.Some? && trigger.value != "" && trigger.value !in triggeredCrises
           && now - lastCrisisTime >= countdownDuration
        {
          triggeredCrises := triggeredCrises + {trigger.value};
          lastCrisisTime := now;
          var crisis := FindCrisis(crisisBank, trigger.value);
          if crisis.Some? {
            AssignAllTeams(crisis.value);
          }
        }
        assert Snapshot() == Gate(crisisBank, served, trigger, now);
        item := FeedItem(timeline[currentMonth].name, entry.text, entry.id);
      } else {
        item := FinalItem;
      }
    }

    /** `advance_timeline`; the token is a required parameter. */
    method AdvanceTimeline(token: string) returns (reply: Reply)
      requires Valid()
      modifies this
      ensures Valid()
      ensures (Snapshot(), reply) == Engine.AdvanceTimeline(timeline, adminToken, old(Snapshot()), token)
      ensures eventLog == old(eventLog)
    {
      if Some(token) != adminToken {
        return Unauthorized;
      }
      if currentMonth < |timeline| - 1 {
        currentMonth := currentMonth + 1;
        newsIndex := 0;
        return Advanced(timeline[currentMonth].name);
      }
      return AtEnd(timeline[currentMonth].name);
    }

    /** `update_timer`. */
    method UpdateTimer(duration: int, token: Option<string>) returns (reply: Reply)
      requires Valid()
      modifies this
      ensures Valid()
      ensures (Snapshot(), reply) == Engine.UpdateTimer(timeline, adminToken, old(Snapshot()), duration, token)
      ensures eventLog == old(eventLog)
    {
      if token != adminToken {
        return Unauthorized;
      }
      countdownDuration := Clamp(duration);
      return Updated(countdownDuration);
    }

    /** `get_current_crisis`: a read of the board and the gate's clock. */
    method GetCurrentCrisis(team: string, now: int) returns (view: CrisisView)
      requires Valid()
      ensures view == CurrentCrisis(Snapshot(), team, now)
      ensures team in TeamSet ==> view.crisis == activeCrises[team]
      ensures team !in TeamSet ==> view.crisis == None
      ensures view.countdown == countdownDuration
      ensures now >= lastCrisisTime ==> 0 <= view.timeRemaining <= countdownDuration
    {
      var untilNext := countdownDuration - (now - lastCrisisTime);
      var slot := if team in activeCrises then activeCrises[team] else None;
      view := CrisisView(slot, if untilNext > 0 then untilNext else 0, countdownDuration);
    }

    /** `inject_crisis`. */
    method InjectCrisis(team: string, crisisId: string, token: Option<string>) returns (reply: Reply)
      requires Valid()
      modifies this
      ensures Valid()
      ensures (Snapshot(), reply) == Inject(crisisBank, adminToken, old(Snapshot()), team, crisisId, token)
      ensures eventLog == old(eventLog)
    {
      if token != adminToken {
        return Unauthorized;
      }
      var crisis := FindCrisis(crisisBank, crisisId);
      if crisis.Some? && team in activeCrises {
        activeCrises := activeCrises[team := crisis];
        return Injected(crisis.value.title);
      }
      return Error("Invalid crisis or team");
    }

    /** `clear_crisis`. */
    method ClearCrisis(team: string, token: Option<string>) returns (reply: Reply)
      requires Valid()
      modifies this
      ensures Valid()
      ensures (Snapshot(), reply) == Clear(adminToken, old(Snapshot()), team, token)
      ensures eventLog == old(eventLog)
    {
      if token != adminToken {
        return Unauthorized;
      }
      if team in activeCrises {
        activeCrises := activeCrises[team := None];
        return Cleared;
      }
      return Error("Invalid team");
    }

    /** `log_event`; always answers "logged". */
    method LogEvent(team: string, eventId: string, eventTitle: string, response: Option<string>, timestamp: string)
      returns (reply: Reply)
      requires Valid()
      modifies this
      ensures Valid()
      ensures reply == Logged
      ensures Snapshot() == old(Snapshot())
      ensures eventLog == AppendEvent(old(eventLog), team, LogEntry(timestamp, eventId, eventTitle, response))
    {
      if team in eventLog {
        eventLog := eventLog[team := eventLog[team] + [LogEntry(timestamp, eventId, eventTitle, response)]];
      }
      reply := Logged;
    }
  }
}
