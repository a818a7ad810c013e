/**
 * The two static tables of the simulation: the crisis bank and the news
 * timeline, grouped by month, together with the fixed set of teams.
 */
module Catalog {
  import opened Wrappers

  /** A scripted scenario that can be assigned to a team. */
  datatype Crisis = Crisis(id: string, title: string, description: string, prompt: string)

  /** One scripted headline; `trigger` names the crisis it may fire. */
  datatype NewsEntry = NewsEntry(id: string, text: string, trigger: Option<string>)

  /** A month key of the timeline and its headlines, in serving order. */
  datatype Month = Month(name: string, entries: seq<NewsEntry>)

  /** The teams, in the order the automatic trigger assigns their slots. */
  const Teams: seq<string> := ["usa", "china", "neutral"]

  /** The keys of the per-team crisis board. */
  const TeamSet: set<string> := {"usa", "china", "neutral"}

  lemma TeamsAreTeamSet()
    ensures forall t :: t in TeamSet <==> t in Teams
  {
  }

  /** Position of the first crisis with identifier `id`, or `|bank|` when there is none. */
  function CrisisIndex(bank: seq<Crisis>, id: string): (k: nat)
    ensures k <= |bank|
    ensures k < |bank| ==> bank[k].id == id
    ensures forall j :: 0 <= j < k ==> bank[j].id != id
  {
    if bank == [] then 0
    else if bank[0].id == id then 0
    else 1 + CrisisIndex(bank[1..], id)
  }

  /**
   * The lookup `next((c for c in crisis_bank if c["id"] == id), None)`:
   * the first crisis of the bank with that identifier, if any.
   */
  function FindCrisis(bank: seq<Crisis>, id: string): (r: Option<Crisis>)
    ensures r.None? <==> forall j :: 0 <= j < |bank| ==> bank[j].id != id
    ensures r.Some? ==> r.value in bank && r.value.id == id
    ensures forall j :: 0 <= j < |bank| && bank[j].id == id && (forall i :: 0 <= i < j ==> bank[i].id != id) ==>
              r == Some(bank[j])
  {
    var k := CrisisIndex(bank, id);
    if k < |bank| then Some(bank[k]) else None
  }
}
