# News timeline and crisis trigger, modelled in Dafny

This project models the state machine at the heart of a classroom
role-play server for an AI-ethics simulation (`main.py`). Three teams
("usa", "china", "neutral") watch a scripted news feed. The feed walks a
timeline of headlines grouped by month. A headline may name a crisis to
trigger. A rate-limited gate decides whether that crisis fires: at most
once per crisis id, and no sooner than a cooldown after the previous fire.
When it fires, every team's slot on the crisis board gets the same crisis.
An instructor can advance the timeline by a month, change the cooldown
(clamped to 10..600 seconds), and inject or clear a single team's crisis.
Every instructor operation is guarded by a shared token.

Layout:

- `wrappers.dfy`: `Option`, the model of Python's `None`.
- `catalog.dfy`: the crisis, headline and month records, the team set, and
  the crisis-bank lookup (`next(...)`, the first match).
- `engine.dfy`: the six globals as one `State` value, plus one function per
  request handler giving the new state and the reply.
  - `Settle` is the month rollover.
  - `Gate` is the trigger rule.
  - `Run` is a sequence of feed requests.
  - `MonthItems`, `Catalogue` and `Pending` are reference definitions of the catalog order.
- `engine_props.dfy`: the properties, stated as lemmas.
- `server.dfy`: the handlers as methods of a class `Simulation`. Its fields
  are the globals (`current_month` as the position of the month key) and
  the event log. Each method is proved equal to its `Engine` function.
- `themes.dfy`: the theme rule that picks the marker in front of each
  crisis in the instructor's selector.
- `scenario.dfy`: the default crisis bank and timeline the server starts
  with, and facts about them.

Modelling choices:

- **Time.** Time is an integer `now` argument; the log timestamp is a string argument.
- **Truthiness.** Python truthiness is written out. `if news_item["trigger"]` holds for
  `Some(t)` with `t != ""`. `if crisis:` holds for any catalog hit.
- **Tokens.** A token check is plain equality of optional strings (`token != ADMIN_TOKEN`).
  - `update_timer`, `inject_crisis` and `clear_crisis` take the token as
    `Option<string>`, which defaults to `None`. An omitted token therefore
    passes when the admin token is unset.
  - `advance_timeline` declares `token: str` with no default, so it is
    compared as `Some(token)`. With no admin token configured, it always
    answers "Unauthorized".
- **Invariant.** `Valid` says:
  - the cursor is inside the timeline and its index is at most the month's length;
  - the cooldown lies in 10..600;
  - the board's keys are the three teams.

  Every handler keeps it.
- **Clock.** Because firing needs `now - last >= countdown >= 10`, the gate's
  clock never moves backwards, for any sequence of `now` values.
- **Final item.** The exhausted timeline is answered with the literal month
  "December 2026", not with the name of the timeline's last month. For the
  default timeline the two coincide (`Scenario.DefaultShape`).
- **Unknown triggers.** A trigger id with no crisis in the bank is not a no-op.
  The id is consumed and the clock reset before the lookup, so that id can
  never fire later, and the next crisis must wait a full cooldown
  (`EngineProps.MissingCrisisConsumed`).

## Model

| member | source | states |
|---|---|---|
| Catalog.CrisisIndex | main.py:460 | the position of the first crisis with the id, or the bank's length when none has it |
| Catalog.FindCrisis | main.py:460 | None exactly when no crisis has the id; otherwise a bank member with that id, namely the first such |
| Engine.Initial | main.py:236-238 | start state: first month, index 0, nothing fired, clock 0 and cooldown 120 (set at main.py:13-14), all three slots empty; satisfies the invariant |
| Engine.Authorized | main.py:481 | the token check of every instructor operation: the given token equals the admin token, both optional (main.py:954, 1611, 1623 use the same test) |
| Engine.Settle | main.py:470-475 | rollover never moves back; it only leaves an exhausted month and only crosses empty months; it stops on an unread entry or at the last month, with index 0 after any move |
| Engine.Fires | main.py:453-455 | the gate's three conditions: a non-empty trigger, not in the consumed set, and at least the cooldown since the last fire; `EngineProps.FeedGate` proves a served entry fires exactly when it holds |
| Engine.AssignAll | main.py:462-463 | every team's slot holds the same crisis; other keys unchanged |
| Engine.Gate | main.py:452-463 | if the three conditions fail, nothing changes; on firing, the id is added and the clock set to now; the board becomes all-teams only on a bank hit |
| Engine.Feed | main.py:438-477 | keeps the invariant; never changes the cooldown; the fired set and the clock only grow; answers the final item when nothing is left to serve |
| Engine.Run | main.py:438-477 | a sequence of feed requests keeps the invariant and answers one item per request |
| Engine.AdvanceTimeline | main.py:479-493 | a wrong token changes nothing; otherwise it moves to the next month with index 0, or answers at_end unchanged at the last month; gate, cooldown and board are never touched |
| Engine.Clamp | main.py:958 | result in [10,600]; identity on [10,600], 10 below, 600 above |
| Engine.UpdateTimer | main.py:951-959 | a wrong token changes nothing; otherwise only the cooldown changes, to the clamped value, which is echoed in the reply |
| Engine.TimeRemaining | main.py:1598-1604 | never negative; zero exactly when the gate's clock condition holds; when positive, it is the seconds left; at most the cooldown once now is past the last fire |
| Engine.CurrentCrisis | main.py:1595-1606 | the team's slot (None for an unknown team), the time remaining and the cooldown |
| Engine.Inject | main.py:1608-1618 | only the board changes, and only the named team's slot; wrong token means Unauthorized; unknown team or crisis means an error and no change; otherwise the slot holds the first bank crisis with the id and the reply carries its title |
| Engine.Clear | main.py:1620-1629 | only the named team's slot changes, to None; wrong token means Unauthorized; unknown team means an error and no change |
| EngineProps.FeedInBounds | main.py:447-449 | inside a month, the entry at the index is served, the index grows by one and the month stays |
| EngineProps.FeedRollsOver | main.py:470-475 | an exhausted month rolls to the next one, whose first entry is served, leaving index 1 |
| EngineProps.FeedAtEnd | main.py:476-477 | at the last month with the index exhausted, the reply is the final item and the state is unchanged |
| EngineProps.PendingSettle | main.py:470-475 | rolling over does not change what is left to serve; nothing is left exactly when the settled index is exhausted |
| EngineProps.PendingIsSuffix | main.py:438-477 | what is left is the rest of the current month followed by every later month in catalog order |
| EngineProps.MonthSuffixStep | main.py:447-449 | the rest of a month from an unread entry is that entry followed by the rest from the next one |
| EngineProps.CatalogueStep | main.py:348-429 | the catalogue from a month is that month's items followed by the catalogue of the later months |
| EngineProps.PendingFromStart | main.py:236-237 | from the initial cursor, what is left is the whole catalogue |
| EngineProps.FeedServesPending | main.py:438-477 | each request serves the first item left and removes exactly that item |
| EngineProps.FeedExhausted | main.py:476-477 | once nothing is left: the final item, gate and board untouched, the cursor at the last month, still nothing left |
| EngineProps.RunServesPending | main.py:438-477 | as many requests as items left serve exactly those items in order and exhaust the timeline |
| EngineProps.RunAfterEnd | main.py:476-477 | after exhaustion every request answers the final item and gate and board stay as they are |
| EngineProps.Coverage | main.py:438-477 | from start, N requests (N = number of entries) yield each entry exactly once in catalog order; every later request yields the final item |
| EngineProps.FeedGate | main.py:452-463 | the served entry fires exactly when its trigger is non-empty, unused, and the cooldown has passed; firing adds the id, sets the clock to now and fills all three slots only on a bank hit; otherwise gate and board are unchanged, while the news item is still served |
| EngineProps.MissingCrisisConsumed | main.py:457-461 | a trigger with no bank entry still consumes its id and resets the clock, but leaves the board alone |
| EngineProps.FireFillsAllTeams | main.py:461-463 | on a bank hit all three teams hold the same crisis, and its id is the trigger |
| EngineProps.NoRefire | main.py:454 | a trigger already consumed never fires again; gate and board stay as they are |
| EngineProps.CooldownBlocks | main.py:455 | before the cooldown has passed nothing fires |
| EngineProps.CooldownElapsedFires | main.py:453-458 | once the cooldown has passed, an unused non-empty trigger fires |
| EngineProps.RunFiresAtMostOnce | main.py:453-458 | across any sequence of requests the fired ids are pairwise distinct, none was consumed before, and the consumed set grows by exactly them (a shared trigger such as social_unrest fires once) |
| EngineProps.RunWithinCooldown | main.py:455 | while every request comes before the cooldown ends, nothing fires and gate and board stay as they are |
| EngineProps.RunWithoutFire | main.py:461-463 | a run in which nothing fires leaves gate and board as they were, so from start every slot stays empty |
| EngineProps.FireAdvancesClock | main.py:458 | the clock either stays or moves to now, at least 10 seconds past the previous fire |
| EngineProps.InjectThenFireOverwrites | main.py:1616 | an injected slot is overwritten by a later automatic fire: both paths share the board |
| EngineProps.InjectValid | main.py:1615-1616 | inject keeps the invariant, and is a no-op for an unknown team |
| EngineProps.ClearValid | main.py:1626-1627 | clear keeps the invariant, and is a no-op for an unknown team |
| EngineProps.InstructorKeepsGate | main.py:479-493 | no instructor operation removes a consumed id or moves the clock; update_timer leaves the board alone |
| EngineProps.TimerWithinCooldown | main.py:1598-1606 | after the last fire, the time remaining lies in [0, cooldown] and is zero exactly when an unused trigger would fire |
| Server.AppendEvent | main.py:527-533 | the log's teams stay the same; a known team's list gains the record at its end; other lists are unchanged |
| Server.Simulation.constructor | main.py:432-436 | the tables as given, the state Engine.Initial, every team's log empty |
| Server.Simulation.Rollover | main.py:470-475 | the loop over months ends at Engine.Settle of the old cursor; nothing else changes |
| Server.Simulation.AssignAllTeams | main.py:462-463 | the for loop over the teams leaves the board equal to Engine.AssignAll; nothing else changes |
| Server.Simulation.GetNewsFeed | main.py:438-477 | new state and reply equal Engine.Feed of the old state; log untouched |
| Server.Simulation.AdvanceTimeline | main.py:479-493 | new state and reply equal Engine.AdvanceTimeline |
| Server.Simulation.UpdateTimer | main.py:951-959 | new state and reply equal Engine.UpdateTimer |
| Server.Simulation.GetCurrentCrisis | main.py:1595-1606 | the reply equals Engine.CurrentCrisis: the team's slot or None, the cooldown, and a time remaining in [0, cooldown] after the last fire |
| Server.Simulation.InjectCrisis | main.py:1608-1618 | new state and reply equal Engine.Inject |
| Server.Simulation.ClearCrisis | main.py:1620-1629 | new state and reply equal Engine.Clear |
| Server.Simulation.LogEvent | main.py:524-534 | always answers logged; the log becomes Server.AppendEvent of the old log; the state machine is untouched |
| Themes.ContainsIsOccurrence | main.py:938 | the left-to-right substring search agrees with "occurs at some position" |
| Themes.ContainsOccurs | main.py:938 | a substring found by the search occurs at some position |
| Themes.OccursContains | main.py:938 | an occurrence at any position is found by the search |
| Themes.ThemeOf | main.py:934-945 | the selector's if/elif chain: cyber prefix, ai prefix, then nuclear, climate or ocean, medical or vaccine as substrings, else general; `Themes.ThemeRules` states each outcome with its condition |
| Themes.Emoji | main.py:935-945 | the marker of each theme, code point for code point as in the selector |
| Themes.EmojiDistinct | main.py:935-945 | two themes have the same marker exactly when they are the same theme |
| Themes.ThemeRules | main.py:934-945 | each theme is chosen exactly when its own rule matches and no earlier rule does |
| Themes.PrefixWins | main.py:934-937 | an id starting with cyber or ai takes one of those two themes, whatever it contains |
| Scenario.DefaultShape | main.py:348-429 | the default timeline has 12 non-empty months from January 2026 to December 2026 (the name the final item uses); the bank has 16 crises |
| Scenario.NoIdStartsWithL | main.py:241-345 | every default crisis id is non-empty and none starts with l |
| Scenario.LabBreachMissing | main.py:357 | the trigger lab_breach has no crisis in the default bank |
| Scenario.NoEarlierIdStartsWithS | main.py:241-326 | none of the first 13 default crisis ids starts with s |
| Scenario.SocialUnrestFound | main.py:327 | the shared trigger social_unrest finds the fourteenth crisis of the bank |
| Scenario.DefaultThemes | main.py:934-939 | the default cyber_infrastructure, ai_consciousness and nuclear_codes crises take the cyber, robot and nuclear themes |
| Catalog.TeamsAreTeamSet | main.py:462 | the team list of the fire loop and the board's keys are the same three teams |

## Left out

- The HTML and JavaScript pages are not modelled. They contain no server
  logic beyond markup and client-side polling. This covers `home`, the news
  ticker, both dashboards, the embed page, the event-log pages and the
  option markup of the crisis selector. Only the selector's theme rule is modelled.
- Instance discovery through the Vast.ai SDK and the endpoint health check
  are not modelled. Both are foreign calls and network I/O.
- Redirects, environment loading and the startup hook are not modelled.
  `news_interval` is never read by the state machine.
- The settings file `config.py` is not modelled.
- Floating-point time is not modelled. `time.time()` becomes an integer
  argument, so the `int()` truncation of the time remaining is the identity.
  `datetime.now()` becomes a timestamp string argument.
- Concurrency and the async framework are not modelled. Each handler is
  one atomic step.
- EngineProps.Coverage: states the first N replies and the later replies
  as two runs, the second starting where the first ended, rather than as
  one run over the concatenated request times.
- Scenario.DefaultThemes: covers only three default ids, those whose theme
  follows from a prefix. For the others (for example ocean_collapse), proving
  the theme needs the solver to rule out every earlier substring, which is
  too costly here.
