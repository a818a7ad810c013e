/**
 * The news-timeline and crisis-trigger state machine as values: one State
 * holding the cursor, the trigger gate and the crisis board, and one
 * function per request handler giving the new state and the reply.
 */
module Engine {
  import opened Wrappers
  import opened Catalog

  const InitialCountdown: int := 120
  const MinCountdown: int := 10
  const MaxCountdown: int := 600

  /** The reply body of the news feed: `{month, news, id}`. */
  datatype FeedItem = FeedItem(month: string, news: string, id: string)

  /** What the feed answers once the timeline is exhausted. */
  const FinalItem: FeedItem := FeedItem("December 2026", "AGI IMMINENT - FINAL DECISIONS REQUIRED", "final")

  /**
   * The globals of the simulation: the timeline cursor (`month` is the
   * position of the current month key, `index` the next entry in it), the
   * trigger gate and the per-team board.
   */
  datatype State = State(
    month: nat,
    index: nat,
    triggered: set<string>,
    lastCrisisTime: int,
    countdown: int,
    board: map<string, Option<Crisis>>)

  /** Replies of the instructor operations and of the event log. */
  datatype Reply =
    | Error(message: string)
    | Advanced(currentMonth: string)
    | AtEnd(currentMonth: string)
    | Updated(newDuration: int)
    | Injected(title: string)
    | Cleared
    | Logged

  const Unauthorized: Reply := Error("Unauthorized")

  /** What a team dashboard polls: its slot, the seconds left and the cooldown. */
  datatype CrisisView = CrisisView(crisis: Option<Crisis>, timeRemaining: int, countdown: int)

  /** The invariant every handler keeps. */
  predicate Valid(tl: seq<Month>, s: State) {
    && 0 < |tl|
    && s.month < |tl|
    && s.index <= |tl[s.month].entries|
    && MinCountdown <= s.countdown <= MaxCountdown
    && s.board.Keys == TeamSet
  }

  /** The state at process start: first month, nothing fired, every slot empty. */
  function Initial(tl: seq<Month>): (s: State)
    requires 0 < |tl|
    ensures Valid(tl, s)
    ensures s.month == 0 && s.index == 0 && s.triggered == {}
    ensures s.lastCrisisTime == 0 && s.countdown == InitialCountdown
    ensures forall t :: t in TeamSet ==> s.board[t] == None
  {
    State(0, 0, {}, 0, InitialCountdown, map t | t in TeamSet :: None)
  }

  /** Shared-secret check `token != ADMIN_TOKEN`, on optional strings. */
  predicate Authorized(token: Option<string>, admin: Option<string>) {
    token == admin
  }

  // ---------------------------------------------------------------------
  // Timeline cursor

  /**
   * The month rollover of the feed: while the current month is exhausted
   * and a later month exists, move to it with index 0.
   */
  function Settle(tl: seq<Month>, m: nat, i: nat): (r: (nat, nat))
    requires m < |tl| && i <= |tl[m].entries|
    ensures m <= r.0 < |tl| && r.1 <= |tl[r.0].entries|
    ensures r.0 == m ==> r.1 == i
    ensures r.0 > m ==> r.1 == 0 && i == |tl[m].entries|
    ensures forall k :: m < k < r.0 ==> tl[k].entries == []
    ensures r.1 < |tl[r.0].entries| || r.0 == |tl| - 1
    decreases |tl| - m
  {
    if i < |tl[m].entries| || m == |tl| - 1 then (m, i)
    else Settle(tl, m + 1, 0)
  }

  /** The entry the next feed request serves, or None at the end of the timeline. */
  function Served(tl: seq<Month>, s: State): Option<NewsEntry>
    requires Valid(tl, s)
  {
    var (m, i) := Settle(tl, s.month, s.index);
    if i < |tl[m].entries| then Some(tl[m].entries[i]) else None
  }

  // ---------------------------------------------------------------------
  // Crisis trigger gate

  /** The three conditions of the gate: a non-empty trigger, not yet consumed, and the cooldown passed. */
  predicate Fires(s: State, trigger: Option<string>, now: int) {
    && trigger.Some?
    && trigger.value != ""
    && trigger.value !in s.triggered
    && now - s.lastCrisisTime >= s.countdown
  }

  /** Every team's slot set to the same crisis; other keys kept. */
  function AssignAll(board: map<string, Option<Crisis>>, c: Crisis): (r: map<string, Option<Crisis>>)
    ensures r.Keys == board.Keys + TeamSet
    ensures forall t :: t in TeamSet ==> r[t] == Some(c)
    ensures forall t :: t in board && t !in TeamSet ==> r[t] == board[t]
  {
    map t | t in board.Keys + TeamSet :: if t in TeamSet then Some(c) else board[t]
  }

  /**
   * The gate applied to a served entry: on firing, the id is consumed and
   * the clock reset before the bank lookup, and only a hit fills the board.
   */
  function Gate(bank: seq<Crisis>, s: State, trigger: Option<string>, now: int): (r: State)
    ensures r.month == s.month && r.index == s.index && r.countdown == s.countdown
    ensures !Fires(s, trigger, now) ==> r == s
    ensures Fires(s, trigger, now) ==>
              && r.triggered == s.triggered + {trigger.value}
              && r.lastCrisisTime == now
              && r.board == match FindCrisis(bank, trigger.value)
                            case Some(c) => AssignAll(s.board, c)
                            case None => s.board
  {
    if Fires(s, trigger, now) then
      var id := trigger.value;
      var s1 := s.(triggered := s.triggered + {id}, lastCrisisTime := now);
      match FindCrisis(bank, id)
      case Some(c) => s1.(board := AssignAll(s1.board, c))
      case None => s1
    else
      s
  }

  /** `get_news_feed`: serve the next entry (after any rollover) and run the gate on it. */
  function Feed(tl: seq<Month>, bank: seq<Crisis>, s: State, now: int): (r: (State, FeedItem))
    requires Valid(tl, s)
    ensures Valid(tl, r.0)
    ensures r.0.countdown == s.countdown
    ensures s.triggered <= r.0.triggered
    ensures s.lastCrisisTime <= r.0.lastCrisisTime
    ensures Served(tl, s).None? ==> r.1 == FinalItem
  {
    var (m, i) := Settle(tl, s.month, s.index);
    if i < |tl[m].entries| then
      var e := tl[m].entries[i];
      (Gate(bank, s.(month := m, index := i + 1), e.trigger, now), FeedItem(tl[m].name, e.text, e.id))
    else
      (s.(month := m, index := i), FinalItem)
  }

  /** A sequence of feed requests at the given times: final state and the items served. */
  function Run(tl: seq<Month>, bank: seq<Crisis>, s: State, nows: seq<int>): (r: (State, seq<FeedItem>))
    requires Valid(tl, s)
    ensures Valid(tl, r.0) && |r.1| == |nows|
    decreases |nows|
  {
    if nows == [] then (s, [])
    else
      var step := Feed(tl, bank, s, nows[0]);
      var rest := Run(tl, bank, step.0, nows[1..]);
      (rest.0, [step.1] + rest.1)
  }

  /** The crisis ids that fire during `Run(tl, bank, s, nows)`, in order. */
  function FiredAlong(tl: seq<Month>, bank: seq<Crisis>, s: State, nows: seq<int>): seq<string>
    requires Valid(tl, s)
    decreases |nows|
  {
    if nows == [] then []
    else
      var e := Served(tl, s);
      var fired := if e.Some? && Fires(s, e.value.trigger, nows[0]) then [e.value.trigger.value] else [];
      fired + FiredAlong(tl, bank, Feed(tl, bank, s, nows[0]).0, nows[1..])
  }

  // ---------------------------------------------------------------------
  // Reference order of the timeline

  /** The items a month contributes, in order. */
  function MonthItems(m: Month): seq<FeedItem>
  {
    seq(|m.entries|, k requires 0 <= k < |m.entries| => FeedItem(m.name, m.entries[k].text, m.entries[k].id))
  }

  /** Every entry of the timeline, month by month, in catalog order. */
  function Catalogue(tl: seq<Month>): seq<FeedItem>
  {
    if tl == [] then [] else MonthItems(tl[0]) + Catalogue(tl[1..])
  }

  /** The items still to be served from cursor position (m, i), as the feed walks them. */
  function Pending(tl: seq<Month>, m: nat, i: nat): seq<FeedItem>
    requires m < |tl| && i <= |tl[m].entries|
    decreases |tl| - m, |tl[m].entries| - i
  {
    if i < |tl[m].entries| then
      [FeedItem(tl[m].name, tl[m].entries[i].text, tl[m].entries[i].id)] + Pending(tl, m, i + 1)
    else if m < |tl| - 1 then Pending(tl, m + 1, 0)
    else []
  }

  // ---------------------------------------------------------------------
  // Instructor operations and reads

  /** `advance_timeline`: jump to the next month; the gate and the board are never touched. */
  function AdvanceTimeline(tl: seq<Month>, admin: Option<string>, s: State, token: string): (r: (State, Reply))
    requires Valid(tl, s)
    ensures Valid(tl, r.0)
    ensures r.0.triggered == s.triggered && r.0.lastCrisisTime == s.lastCrisisTime
    ensures r.0.countdown == s.countdown && r.0.board == s.board
    ensures !Authorized(Some(token), admin) ==> r == (s, Unauthorized)
    ensures Authorized(Some(token), admin) && s.month + 1 < |tl| ==>
              r.0.month == s.month + 1 && r.0.index == 0 && r.1 == Advanced(tl[s.month + 1].name)
    ensures Authorized(Some(token), admin) && s.month + 1 == |tl| ==> r == (s, AtEnd(tl[s.month].name))
  {
    if !Authorized(Some(token), admin) then (s, Unauthorized)
    else if s.month < |tl| - 1 then
      var s1 := s.(month := s.month + 1, index := 0);
      (s1, Advanced(tl[s1.month].name))
    else (s, AtEnd(tl[s.month].name))
  }

  /** `max(10, min(600, duration))`. */
  function Clamp(duration: int): (r: int)
    ensures MinCountdown <= r <= MaxCountdown
    ensures MinCountdown <= duration <= MaxCountdown ==> r == duration
    ensures duration < MinCountdown ==> r == MinCountdown
    ensures duration > MaxCountdown ==> r == MaxCountdown
  {
    var capped := if duration < MaxCountdown then duration else MaxCountdown;
    if capped > MinCountdown then capped else MinCountdown
  }

  /** `update_timer`: set the cooldown, clamped; nothing else changes. */
  function UpdateTimer(tl: seq<Month>, admin: Option<string>, s: State, duration: int, token: Option<string>): (r: (State, Reply))
    requires Valid(tl, s)
    ensures Valid(tl, r.0)
    ensures !Authorized(token, admin) ==> r == (s, Unauthorized)
    ensures Authorized(token, admin) ==> r.0 == s.(countdown := r.0.countdown) && r.1 == Updated(r.0.countdown)
    ensures Authorized(token, admin) ==> r.0.countdown == Clamp(duration)
  {
    if !Authorized(token, admin) then (s, Unauthorized)
    else
      var d := Clamp(duration);
      (s.(countdown := d), Updated(d))
  }

  /** Seconds until the gate's cooldown has passed, floored at zero. */
  function TimeRemaining(s: State, now: int): (r: int)
    ensures 0 <= r
    ensures r == 0 <==> now - s.lastCrisisTime >= s.countdown
    ensures r > 0 ==> r == s.countdown - (now - s.lastCrisisTime)
    ensures now >= s.lastCrisisTime ==> r <= if s.countdown < 0 then 0 else s.countdown
  {
    var untilNext := s.countdown - (now - s.lastCrisisTime);
    if untilNext > 0 then untilNext else 0
  }

  /** `get_current_crisis`: the team's slot (None for an unknown team) and the timer. */
  function CurrentCrisis(s: State, team: string, now: int): (r: CrisisView)
    ensures r.crisis == (if team in s.board then s.board[team] else None)
    ensures r.countdown == s.countdown
    ensures r.timeRemaining == TimeRemaining(s, now)
  {
    CrisisView(if team in s.board then s.board[team] else None, TimeRemaining(s, now), s.countdown)
  }

  /** `inject_crisis`: put a catalog crisis into one known team's slot. */
  function Inject(bank: seq<Crisis>, admin: Option<string>, s: State, team: string, crisisId: string, token: Option<string>): (r: (State, Reply))
    ensures r.0 == s.(board := r.0.board)
    ensures r.0.board.Keys == s.board.Keys
    ensures forall t :: t in s.board && t != team ==> r.0.board[t] == s.board[t]
    ensures !Authorized(token, admin) ==> r == (s, Unauthorized)
    ensures Authorized(token, admin) && (team !in s.board || FindCrisis(bank, crisisId).None?) ==>
              r == (s, Error("Invalid crisis or team"))
    ensures Authorized(token, admin) && team in s.board && FindCrisis(bank, crisisId).Some? ==>
              r.0.board[team] == FindCrisis(bank, crisisId) && r.1 == Injected(FindCrisis(bank, crisisId).value.title)
  {
    if !Authorized(token, admin) then (s, Unauthorized)
    else
      match FindCrisis(bank, crisisId)
      case Some(c) =>
        if team in s.board then (s.(board := s.board[team := Some(c)]), Injected(c.title))
        else (s, Error("Invalid crisis or team"))
      case None => (s, Error("Invalid crisis or team"))
  }

  /** `clear_crisis`: empty one known team's slot. */
  function Clear(admin: Option<string>, s: State, team: string, token: Option<string>): (r: (State, Reply))
    ensures r.0 == s.(board := r.0.board)
    ensures r.0.board.Keys == s.board.Keys
    ensures forall t :: t in s.board && t != team ==> r.0.board[t] == s.board[t]
    ensures !Authorized(token, admin) ==> r == (s, Unauthorized)
    ensures Authorized(token, admin) && team !in s.board ==> r == (s, Error("Invalid team"))
    ensures Authorized(token, admin) && team in s.board ==> r.0.board[team] == None && r.1 == Cleared
  {
    if !Authorized(token, admin) then (s, Unauthorized)
    else if team in s.board then (s.(board := s.board[team := None]), Cleared)
    else (s, Error("Invalid team"))
  }
}
