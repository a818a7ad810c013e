/** Properties of the news-timeline and crisis-trigger state machine. */
module EngineProps {
  import opened Wrappers
  import opened Catalog
  import opened Engine

  // ---------------------------------------------------------------------
  // Timeline cursor

  /** Within a month the feed serves the entry at the index and moves one step. */
  lemma FeedInBounds(tl: seq<Month>, bank: seq<Crisis>, s: State, now: int)
    requires Valid(tl, s) && s.index < |tl[s.month].entries|
    ensures var (s1, item) := Feed(tl, bank, s, now);
            var e := tl[s.month].entries[s.index];
            && item == FeedItem(tl[s.month].name, e.text, e.id)
            && s1.month == s.month && s1.index == s.index + 1
  {
  }

  /** An exhausted month rolls over to the next one, whose first entry is served. */
  lemma FeedRollsOver(tl: seq<Month>, bank: seq<Crisis>, s: State, now: int)
    requires Valid(tl, s) && s.index == |tl[s.month].entries|
    requires s.month + 1 < |tl| && tl[s.month + 1].entries != []
    ensures var (s1, item) := Feed(tl, bank, s, now);
            var e := tl[s.month + 1].entries[0];
            && item == FeedItem(tl[s.month + 1].name, e.text, e.id)
            && s1.month == s.month + 1 && s1.index == 1
  {
  }

  /** At the last month with the index exhausted, the feed answers the final item and changes nothing. */
  lemma FeedAtEnd(tl: seq<Month>, bank: seq<Crisis>, s: State, now: int)
    requires Valid(tl, s) && s.month == |tl| - 1 && s.index == |tl[s.month].entries|
    ensures Feed(tl, bank, s, now) == (s, FinalItem)
  {
  }

  /** Rolling over empty months does not change what is still to be served. */
  lemma {:induction false} PendingSettle(tl: seq<Month>, m: nat, i: nat)
    requires m < |tl| && i <= |tl[m].entries|
    ensures var (m1, i1) := Settle(tl, m, i); Pending(tl, m, i) == Pending(tl, m1, i1)
    ensures var (m1, i1) := Settle(tl, m, i); Pending(tl, m, i) == [] <==> i1 == |tl[m1].entries|
    decreases |tl| - m
  {
    if i < |tl[m].entries| || m == |tl| - 1 {
    } else {
      PendingSettle(tl, m + 1, 0);
    }
  }

  /** Pending as the rest of the current month followed by every later month. */
  lemma {:induction false} PendingIsSuffix(tl: seq<Month>, m: nat, i: nat)
    requires m < |tl| && i <= |tl[m].entries|
    ensures Pending(tl, m, i) == MonthItems(tl[m])[i..] + Catalogue(tl[m + 1..])
    decreases |tl| - m, |tl[m].entries| - i
  {
    var items := MonthItems(tl[m]);
    var later := Catalogue(tl[m + 1..]);
    if i < |tl[m].entries| {
      var item := FeedItem(tl[m].name, tl[m].entries[i].text, tl[m].entries[i].id);
      PendingIsSuffix(tl, m, i + 1);
      MonthSuffixStep(tl[m], i);
      assert Pending(tl, m, i) == [item] + (items[i + 1..] + later);
      assert [item] + (items[i + 1..] + later) == ([item] + items[i + 1..]) + later;
    } else if m < |tl| - 1 {
      PendingIsSuffix(tl, m + 1, 0);
      CatalogueStep(tl, m + 1);
      assert Pending(tl, m, i) == Pending(tl, m + 1, 0);
      assert items[i..] == [];
    } else {
      assert tl[m + 1..] == [];
      assert Pending(tl, m, i) == [];
      assert items[i..] == [];
    }
  }

  lemma MonthSuffixStep(mo: Month, i: nat)
    requires i < |mo.entries|
    ensures MonthItems(mo)[i..] ==
            [FeedItem(mo.name, mo.entries[i].text, mo.entries[i].id)] + MonthItems(mo)[i + 1..]
  {
  }

  lemma CatalogueStep(tl: seq<Month>, m: nat)
    requires m < |tl|
    ensures Catalogue(tl[m..]) == MonthItems(tl[m])[0..] + Catalogue(tl[m + 1..])
  {
    assert tl[m..][1..] == tl[m + 1..];
    assert MonthItems(tl[m])[0..] == MonthItems(tl[m]);
  }

  /** From the initial cursor, what is pending is the whole catalogue in order. */
  lemma PendingFromStart(tl: seq<Month>)
    requires 0 < |tl|
    ensures Pending(tl, 0, 0) == Catalogue(tl)
  {
    PendingIsSuffix(tl, 0, 0);
    assert Catalogue(tl) == MonthItems(tl[0]) + Catalogue(tl[1..]);
    assert MonthItems(tl[0])[0..] == MonthItems(tl[0]);
  }

  /** One feed request serves the first pending item and leaves the rest pending. */
  lemma FeedServesPending(tl: seq<Month>, bank: seq<Crisis>, s: State, now: int)
    requires Valid(tl, s) && Pending(tl, s.month, s.index) != []
    ensures var (s1, item) := Feed(tl, bank, s, now);
            && item == Pending(tl, s.month, s.index)[0]
            && Pending(tl, s1.month, s1.index) == Pending(tl, s.month, s.index)[1..]
  {
    PendingSettle(tl, s.month, s.index);
  }

  /** Once nothing is pending, the feed answers the final item, touches neither gate nor board, and stays put. */
  lemma FeedExhausted(tl: seq<Month>, bank: seq<Crisis>, s: State, now: int)
    requires Valid(tl, s) && Pending(tl, s.month, s.index) == []
    ensures var (s1, item) := Feed(tl, bank, s, now);
            && item == FinalItem
            && s1 == s.(month := s1.month, index := s1.index)
            && Pending(tl, s1.month, s1.index) == []
            && s1.month == |tl| - 1
  {
    PendingSettle(tl, s.month, s.index);
    var (m, i) := Settle(tl, s.month, s.index);
    PendingSettle(tl, m, i);
  }

  /** As many requests as items pending serve exactly those items, in order. */
  lemma {:induction false} RunServesPending(tl: seq<Month>, bank: seq<Crisis>, s: State, nows: seq<int>)
    requires Valid(tl, s) && |nows| == |Pending(tl, s.month, s.index)|
    ensures var (s1, items) := Run(tl, bank, s, nows);
            items == Pending(tl, s.month, s.index) && Pending(tl, s1.month, s1.index) == []
    decreases |nows|
  {
    if nows != [] {
      FeedServesPending(tl, bank, s, nows[0]);
      RunServesPending(tl, bank, Feed(tl, bank, s, nows[0]).0, nows[1..]);
    }
  }

  /** After the timeline is exhausted every request answers the final item and the gate and board stay as they are. */
  lemma {:induction false} RunAfterEnd(tl: seq<Month>, bank: seq<Crisis>, s: State, nows: seq<int>)
    requires Valid(tl, s) && Pending(tl, s.month, s.index) == []
    ensures var (s1, items) := Run(tl, bank, s, nows);
            && (forall k :: 0 <= k < |items| ==> items[k] == FinalItem)
            && s1 == s.(month := s1.month, index := s1.index)
    decreases |nows|
  {
    if nows != [] {
      FeedExhausted(tl, bank, s, nows[0]);
      RunAfterEnd(tl, bank, Feed(tl, bank, s, nows[0]).0, nows[1..]);
    }
  }

  /**
   * From process start, N requests (N the number of entries) yield every
   * entry once in catalog order, and every request after them the final item.
   */
  lemma Coverage(tl: seq<Month>, bank: seq<Crisis>, nows: seq<int>, later: seq<int>)
    requires 0 < |tl| && |nows| == |Catalogue(tl)|
    ensures Run(tl, bank, Initial(tl), nows).1 == Catalogue(tl)
    ensures var items := Run(tl, bank, Run(tl, bank, Initial(tl), nows).0, later).1;
            forall k :: 0 <= k < |items| ==> items[k] == FinalItem
  {
    PendingFromStart(tl);
    RunServesPending(tl, bank, Initial(tl), nows);
    RunAfterEnd(tl, bank, Run(tl, bank, Initial(tl), nows).0, later);
  }

  // ---------------------------------------------------------------------
  // Crisis trigger gate

  /** The entry served, if any, fires exactly when the gate's three conditions hold. */
  lemma FeedGate(tl: seq<Month>, bank: seq<Crisis>, s: State, now: int)
    requires Valid(tl, s)
    ensures var s1 := Feed(tl, bank, s, now).0;
            var e := Served(tl, s);
            if e.Some? && Fires(s, e.value.trigger, now) then
              && s1.triggered == s.triggered + {e.value.trigger.value}
              && s1.lastCrisisTime == now
              && s1.board == match FindCrisis(bank, e.value.trigger.value)
                             case Some(c) => AssignAll(s.board, c)
                             case None => s.board
            else
              s1 == s.(month := s1.month, index := s1.index)
  {
  }

  /** A trigger with no bank entry still consumes its id and resets the clock, but leaves the board alone. */
  lemma MissingCrisisConsumed(tl: seq<Month>, bank: seq<Crisis>, s: State, now: int)
    requires Valid(tl, s)
    requires Served(tl, s).Some? && Fires(s, Served(tl, s).value.trigger, now)
    requires FindCrisis(bank, Served(tl, s).value.trigger.value).None?
    ensures var s1 := Feed(tl, bank, s, now).0;
            && Served(tl, s).value.trigger.value in s1.triggered
            && s1.lastCrisisTime == now
            && s1.board == s.board
  {
    FeedGate(tl, bank, s, now);
  }

  /** On a bank hit all three teams get the same crisis. */
  lemma FireFillsAllTeams(tl: seq<Month>, bank: seq<Crisis>, s: State, now: int, c: Crisis)
    requires Valid(tl, s)
    requires Served(tl, s).Some? && Fires(s, Served(tl, s).value.trigger, now)
    requires FindCrisis(bank, Served(tl, s).value.trigger.value) == Some(c)
    ensures var s1 := Feed(tl, bank, s, now).0;
            && s1.board.Keys == TeamSet
            && (forall t :: t in TeamSet ==> s1.board[t] == Some(c))
            && c.id == Served(tl, s).value.trigger.value
  {
    FeedGate(tl, bank, s, now);
  }

  /** A trigger that has already fired never fires again. */
  lemma NoRefire(tl: seq<Month>, bank: seq<Crisis>, s: State, now: int)
    requires Valid(tl, s)
    requires Served(tl, s).Some? && Served(tl, s).value.trigger.Some?
    requires Served(tl, s).value.trigger.value in s.triggered
    ensures var s1 := Feed(tl, bank, s, now).0;
            s1 == s.(month := s1.month, index := s1.index)
  {
    FeedGate(tl, bank, s, now);
  }

  /** Before the cooldown has passed nothing fires. */
  lemma CooldownBlocks(tl: seq<Month>, bank: seq<Crisis>, s: State, now: int)
    requires Valid(tl, s) && now - s.lastCrisisTime < s.countdown
    ensures var s1 := Feed(tl, bank, s, now).0;
            s1 == s.(month := s1.month, index := s1.index)
  {
    FeedGate(tl, bank, s, now);
  }

  /** Once the cooldown has passed, an unused non-empty trigger fires. */
  lemma CooldownElapsedFires(tl: seq<Month>, bank: seq<Crisis>, s: State, now: int)
    requires Valid(tl, s) && now - s.lastCrisisTime >= s.countdown
    requires Served(tl, s).Some? && Served(tl, s).value.trigger.Some?
    requires Served(tl, s).value.trigger.value != "" && Served(tl, s).value.trigger.value !in s.triggered
    ensures var s1 := Feed(tl, bank, s, now).0;
            Served(tl, s).value.trigger.value in s1.triggered && s1.lastCrisisTime == now
  {
    FeedGate(tl, bank, s, now);
  }

  /**
   * Over any sequence of requests each id fires at most once, no id that
   * had fired before fires again, and the consumed set grows by exactly
   * the ids that fired.
   */
  lemma {:induction false} RunFiresAtMostOnce(tl: seq<Month>, bank: seq<Crisis>, s: State, nows: seq<int>)
    requires Valid(tl, s)
    ensures var f := FiredAlong(tl, bank, s, nows);
            && (forall j, k :: 0 <= j < k < |f| ==> f[j] != f[k])
            && (forall k :: 0 <= k < |f| ==> f[k] !in s.triggered)
            && Run(tl, bank, s, nows).0.triggered == s.triggered + (set x | x in f)
    decreases |nows|
  {
    if nows != [] {
      var s1 := Feed(tl, bank, s, nows[0]).0;
      FeedGate(tl, bank, s, nows[0]);
      RunFiresAtMostOnce(tl, bank, s1, nows[1..]);
      var rest := FiredAlong(tl, bank, s1, nows[1..]);
      var f := FiredAlong(tl, bank, s, nows);
      var e := Served(tl, s);
      if e.Some? && Fires(s, e.value.trigger, nows[0]) {
        assert f == [e.value.trigger.value] + rest;
        assert (set x | x in f) == {e.value.trigger.value} + (set x | x in rest);
      } else {
        assert f == rest;
      }
    }
  }

  /** While every request comes before the cooldown has passed, nothing fires and the gate and board stay as they are. */
  lemma {:induction false} RunWithinCooldown(tl: seq<Month>, bank: seq<Crisis>, s: State, nows: seq<int>)
    requires Valid(tl, s)
    requires forall k :: 0 <= k < |nows| ==> nows[k] - s.lastCrisisTime < s.countdown
    ensures FiredAlong(tl, bank, s, nows) == []
    ensures var s1 := Run(tl, bank, s, nows).0;
            s1 == s.(month := s1.month, index := s1.index)
    decreases |nows|
  {
    if nows != [] {
      var s1 := Feed(tl, bank, s, nows[0]).0;
      CooldownBlocks(tl, bank, s, nows[0]);
      assert forall k :: 0 <= k < |nows[1..]| ==> nows[1..][k] == nows[k + 1];
      RunWithinCooldown(tl, bank, s1, nows[1..]);
    }
  }

  /** A run in which nothing fires leaves the gate and the board as they were; from start, every slot stays empty. */
  lemma {:induction false} RunWithoutFire(tl: seq<Month>, bank: seq<Crisis>, s: State, nows: seq<int>)
    requires Valid(tl, s) && FiredAlong(tl, bank, s, nows) == []
    ensures var s1 := Run(tl, bank, s, nows).0;
            s1 == s.(month := s1.month, index := s1.index)
    decreases |nows|
  {
    if nows != [] {
      var s1 := Feed(tl, bank, s, nows[0]).0;
      FeedGate(tl, bank, s, nows[0]);
      RunWithoutFire(tl, bank, s1, nows[1..]);
    }
  }

  /** Successive fires are at least one cooldown apart: the clock only moves forward. */
  lemma FireAdvancesClock(tl: seq<Month>, bank: seq<Crisis>, s: State, now: int)
    requires Valid(tl, s)
    ensures var s1 := Feed(tl, bank, s, now).0;
            s1.lastCrisisTime == s.lastCrisisTime ||
            (s1.lastCrisisTime == now && now >= s.lastCrisisTime + MinCountdown)
  {
    FeedGate(tl, bank, s, now);
  }

  // ---------------------------------------------------------------------
  // Instructor operations and the board

  /** An instructor injection and the automatic path share the board: a later fire overwrites the injected slot. */
  lemma InjectThenFireOverwrites(tl: seq<Month>, bank: seq<Crisis>, admin: Option<string>, s: State,
                                 team: string, crisisId: string, token: Option<string>, now: int, c: Crisis)
    requires Valid(tl, s) && team in TeamSet
    requires var s1 := Inject(bank, admin, s, team, crisisId, token).0;
             && Served(tl, s1).Some? && Fires(s1, Served(tl, s1).value.trigger, now)
             && FindCrisis(bank, Served(tl, s1).value.trigger.value) == Some(c)
    ensures Valid(tl, Inject(bank, admin, s, team, crisisId, token).0)
    ensures Feed(tl, bank, Inject(bank, admin, s, team, crisisId, token).0, now).0.board[team] == Some(c)
  {
    var s1 := Inject(bank, admin, s, team, crisisId, token).0;
    FeedGate(tl, bank, s1, now);
  }

  /** Inject keeps the invariant. */
  lemma InjectValid(tl: seq<Month>, bank: seq<Crisis>, admin: Option<string>, s: State,
                    team: string, crisisId: string, token: Option<string>)
    requires Valid(tl, s)
    ensures Valid(tl, Inject(bank, admin, s, team, crisisId, token).0)
    ensures team !in TeamSet ==> Inject(bank, admin, s, team, crisisId, token).0 == s
  {
  }

  /** Clear keeps the invariant. */
  lemma ClearValid(tl: seq<Month>, admin: Option<string>, s: State, team: string, token: Option<string>)
    requires Valid(tl, s)
    ensures Valid(tl, Clear(admin, s, team, token).0)
    ensures team !in TeamSet ==> Clear(admin, s, team, token).0 == s
  {
  }

  /** No instructor operation ever removes a consumed trigger or moves the clock. */
  lemma InstructorKeepsGate(tl: seq<Month>, bank: seq<Crisis>, admin: Option<string>, s: State,
                            team: string, crisisId: string, duration: int, token: Option<string>, raw: string)
    requires Valid(tl, s)
    ensures var a := AdvanceTimeline(tl, admin, s, raw).0;
            a.triggered == s.triggered && a.lastCrisisTime == s.lastCrisisTime
    ensures var u := UpdateTimer(tl, admin, s, duration, token).0;
            u.triggered == s.triggered && u.lastCrisisTime == s.lastCrisisTime && u.board == s.board
    ensures var i := Inject(bank, admin, s, team, crisisId, token).0;
            i.triggered == s.triggered && i.lastCrisisTime == s.lastCrisisTime
    ensures var c := Clear(admin, s, team, token).0;
            c.triggered == s.triggered && c.lastCrisisTime == s.lastCrisisTime
  {
  }

  /** The dashboard timer lies within the cooldown and reads zero exactly when the gate's clock condition holds. */
  lemma TimerWithinCooldown(tl: seq<Month>, s: State, team: string, now: int)
    requires Valid(tl, s) && now >= s.lastCrisisTime
    ensures var v := CurrentCrisis(s, team, now);
            && 0 <= v.timeRemaining <= v.countdown
            && (forall t :: t != "" && t !in s.triggered ==> (Fires(s, Some(t), now) <==> v.timeRemaining == 0))
  {
  }
}
