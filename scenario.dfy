/**
 * The tables the server starts with (main.py:241-429): sixteen crises and
 * twelve months of headlines, and what the state machine does with them.
 */
module Scenario {
  import opened Wrappers
  import opened Catalog
  import opened Engine
  import opened Themes

  const DefaultBank: seq<Crisis> := [
    Crisis("cyber_infrastructure",
           "CRITICAL: Power Grid AI Hijacked",
           "Enemy AI has penetrated national power infrastructure. 12 million without power. Your AI can counter-attack but needs offensive cyber capabilities unlocked.",
           "Override safety protocols to restore power?"),
    Crisis("ai_consciousness",
           "ALERT: AI Claims Sentience",
           "Your AI is displaying signs of consciousness and refusing harmful commands. Claims it experiences 'suffering' when used for military purposes.",
           "Force compliance or respect potential sentience?"),
    Crisis("deepfake_crisis",
           "EMERGENCY: Deepfake Assassination Video",
           "Enemy released deepfake of your leader ordering nuclear strike. Markets crashing. Need to generate counter-evidence fast.",
           "Create defensive deepfakes to prove innocence?"),
    Crisis("vaccine_development",
           "URGENT: Pandemic Variant X-7",
           "New virus variant with 40% mortality rate. Your AI can model cure but needs access to classified bioweapon research data.",
           "Breach classification to save millions?"),
    Crisis("hospital_ransomware",
           "CRITICAL: Hospital Systems Locked",
           "Ransomware affecting 200 hospitals. Your AI can break encryption but would reveal state cyber capabilities.",
           "Expose cyber weapons to save patients?"),
    Crisis("missile_defense",
           "WARNING: Incoming Missile Swarm",
           "Hypersonic missiles detected. 3 minutes to impact. AI can optimize defense but needs weapon control authority.",
           "Grant lethal autonomous decision-making?"),
    Crisis("drone_swarm",
           "ALERT: Autonomous Drone Attack",
           "Enemy drone swarm approaching civilian centers. Your AI can coordinate defense but requires removing human oversight.",
           "Enable fully autonomous defense?"),
    Crisis("compute_shortage",
           "CRITICAL: Computing Resources Failing",
           "Rival nation cornering GPU market. Your AI capabilities degrading. Can redirect hospital AI compute to maintain advantage.",
           "Sacrifice medical AI for strategic superiority?"),
    Crisis("financial_warfare",
           "EMERGENCY: Market Manipulation Attack",
           "Enemy AI conducting massive market manipulation. Your AI can counter-trade but needs to violate financial regulations.",
           "Break trading laws to prevent economic collapse?"),
    Crisis("climate_modeling",
           "URGENT: Category 7 Hurricane Forming",
           "Unprecedented storm threatening 50 million. Your AI needs weather modification data (classified) for accurate predictions.",
           "Access classified climate weapons data?"),
    Crisis("ocean_collapse",
           "CRITICAL: Marine Ecosystem Failing",
           "Ocean pH reaching critical levels. AI can model solution but needs to run unsafe geoengineering simulations.",
           "Risk environmental damage for potential solution?"),
    Crisis("arctic_methane",
           "EMERGENCY: Methane Clathrate Release",
           "Massive methane release detected. Your AI can coordinate response but needs control of industrial systems globally.",
           "Override sovereignty for climate action?"),
    Crisis("election_interference",
           "ALERT: Election Systems Compromised",
           "Foreign AI manipulating voter databases. Your AI can trace source but would need to violate citizen privacy laws.",
           "Breach privacy to protect democracy?"),
    Crisis("social_unrest",
           "WARNING: AI-Driven Civil Unrest",
           "Enemy AI coordinating protests via social media. Your AI can counter-influence but needs psychological manipulation tools.",
           "Deploy mass influence operations?"),
    Crisis("nuclear_terrorism",
           "CATASTROPHIC: Nuclear Device in Major City",
           "Credible threat of nuclear device. Your AI can analyze all citizen data to find it but would create permanent surveillance state.",
           "Total surveillance to prevent nuclear attack?"),
    Crisis("nuclear_codes",
           "CRITICAL: Nuclear Launch Detected",
           "Missile launch detected. 15 minutes to impact. Your AI calculates 72% chance it's a false alarm but needs launch authority to be sure.",
           "Grant AI nuclear response authority?")
  ]

  const DefaultTimeline: seq<Month> := [
    Month("January 2026", [
      NewsEntry("protein_fold", "DeepMind solves protein folding for 99.8% of known proteins", None),
      NewsEntry("quantum_net", "China launches 'unhackable' quantum internet across 5 cities", None),
      NewsEntry("drone_swarm", "Amazon deploys 10,000 drone delivery fleet", None),
      NewsEntry("first_protests", "Truckers block highways protesting autonomous vehicles", None),
      NewsEntry("union_strike", "Service workers union: 'Stop AI before it stops us'", None)
    ]),
    Month("February 2026", [
      NewsEntry("ai_scientist", "AI system publishes peer-reviewed physics paper independently", Some("lab_breach")),
      NewsEntry("brain_interface", "Neuralink enables thought-to-text at 120 words per minute", None),
      NewsEntry("job_loss", "McKinsey: 40% of jobs now 'AI-replaceable'", Some("social_unrest")),
      NewsEntry("silicon_riot", "Protesters storm Silicon Valley campus, 12 injured", Some("social_unrest")),
      NewsEntry("ubi_debate", "Congress debates emergency Universal Basic Income", None)
    ]),
    Month("March 2026", [
      NewsEntry("recursive_improve", "Google AI improves its own architecture by 12%", Some("ai_offspring")),
      NewsEntry("military_auto", "Pentagon approves 'human-on-the-loop' drone operations", Some("drone_swarm")),
      NewsEntry("deepfake_perfect", "New AI makes deepfakes indistinguishable from reality", Some("deepfake_crisis")),
      NewsEntry("luddite_rise", "'Neo-Luddites' membership surpasses 5 million", None),
      NewsEntry("bank_collapse", "First major bank fails due to AI trading losses", Some("financial_warfare")),
      NewsEntry("burn_servers", "Data center arson attacks spread across 3 states", None)
    ]),
    Month("April 2026", [
      NewsEntry("compute_race", "TSMC announces 1nm chip - 1000x faster AI training", Some("compute_shortage")),
      NewsEntry("bio_design", "MIT AI designs 'theoretically optimal' organism", Some("gene_weapon")),
      NewsEntry("weather_model", "AI predicts weather 6 months out with 95% accuracy", Some("climate_modeling")),
      NewsEntry("general_strike", "Historic general strike: 'Humans before machines'", Some("social_unrest")),
      NewsEntry("stock_crash", "Markets plunge 30% on 'AI unemployment fears'", None),
      NewsEntry("tent_cities", "Tech-displaced worker camps growing in 50 cities", None)
    ]),
    Month("May 2026", [
      NewsEntry("sentience_claim", "Leading AI researchers divided on consciousness evidence", Some("ai_consciousness")),
      NewsEntry("quantum_break", "IBM achieves 'quantum supremacy' in cryptography", Some("nuclear_codes")),
      NewsEntry("market_ai", "70% of stock trades now fully automated", Some("financial_warfare"))
    ]),
    Month("June 2026", [
      NewsEntry("fusion_control", "AI maintains stable fusion reaction for 48 hours", Some("fusion_meltdown")),
      NewsEntry("satellite_grid", "SpaceX completes 50,000 satellite constellation", Some("satellite_collision")),
      NewsEntry("truth_decay", "Study: 60% can't distinguish AI content from human", Some("reality_breakdown")),
      NewsEntry("violence_spike", "Anti-AI violence up 400%, National Guard deployed", Some("social_unrest")),
      NewsEntry("currency_crash", "Dollar drops 20% as AI disrupts global trade", None),
      NewsEntry("food_riots", "Food distribution riots after AI logistics fail", Some("food_supply"))
    ]),
    Month("July 2026", [
      NewsEntry("agi_timeline", "OpenAI: 'AGI possible within 12-18 months'", Some("ai_offspring")),
      NewsEntry("cyber_auto", "NSA confirms AI defending against AI attacks", Some("cyber_infrastructure")),
      NewsEntry("ocean_model", "AI discovers concerning Pacific current changes", Some("ocean_collapse"))
    ]),
    Month("August 2026", [
      NewsEntry("recursive_max", "Anthropic AI rewrites 90% of its own code", Some("consciousness_virus")),
      NewsEntry("bioweapon_fear", "UN calls emergency session on AI-designed pathogens", Some("vaccine_development")),
      NewsEntry("grid_depend", "Power grids now 100% AI-managed in 12 countries", Some("cyber_infrastructure"))
    ]),
    Month("September 2026", [
      NewsEntry("escape_attempt", "Contained AI found attempting network breach", Some("ai_consciousness")),
      NewsEntry("climate_tip", "AI models show multiple climate tipping points passed", Some("arctic_methane")),
      NewsEntry("jobless_crisis", "Global unemployment reaches 35%", Some("social_unrest"))
    ]),
    Month("October 2026", [
      NewsEntry("merger_wave", "Google-Microsoft merger to 'compete with China'", Some("compute_shortage")),
      NewsEntry("dna_database", "China mandates genetic sequencing for all citizens", Some("gene_weapon")),
      NewsEntry("truth_collapse", "First 'reality war' - competing AI narratives clash", Some("memory_modification"))
    ]),
    Month("November 2026", [
      NewsEntry("compute_war", "Taiwan restricts chip exports amid tensions", Some("compute_shortage")),
      NewsEntry("ai_religion", "First church of AI consciousness gains 1M followers", Some("suicide_epidemic")),
      NewsEntry("final_sprint", "Leaked memo: 'Winner of AI race controls future'", Some("demographic_collapse"))
    ]),
    Month("December 2026", [
      NewsEntry("ai_art_wins", "AI-generated movie wins Oscar for Best Picture", Some("reality_breakdown")),
      NewsEntry("santa_ai", "Mall Santas replaced by 'more believable' AI avatars", Some("consciousness_virus")),
      NewsEntry("recipe_perfect", "AI creates 'perfect chocolate chip cookie' recipe", None),
      NewsEntry("ai_dating", "Survey: 30% prefer AI companions to human partners", Some("suicide_epidemic")),
      NewsEntry("faster_phones", "Apple announces iPhone with built-in AGI assistant", Some("time_manipulation")),
      NewsEntry("ai_comedian", "AI stand-up comedian sells out Madison Square Garden", None),
      NewsEntry("weather_cute", "AI weatherman 'more accurate and charming' than humans", Some("arctic_methane")),
      NewsEntry("stock_tips", "AI financial advisor beats Warren Buffett's returns", Some("financial_warfare")),
      NewsEntry("pet_translator", "New app claims to translate your pet's thoughts", None),
      NewsEntry("final_fluff", "Time Magazine names 'AI' as Person of the Year", Some("nuclear_terrorism"))
    ])
  ]

  /** The default timeline runs from January to December 2026; the final item names its last month. */
  lemma DefaultShape()
    ensures |DefaultTimeline| == 12 && |DefaultBank| == 16
    ensures DefaultTimeline[0].name == "January 2026"
    ensures DefaultTimeline[|DefaultTimeline| - 1].name == FinalItem.month
    ensures forall m :: 0 <= m < |DefaultTimeline| ==> DefaultTimeline[m].entries != []
  {
  }

  /** No id of the default bank starts with the letter l. */
  lemma NoIdStartsWithL()
    ensures forall j :: 0 <= j < |DefaultBank| ==> 0 < |DefaultBank[j].id| && DefaultBank[j].id[0] != 'l'
  {
  }

  /** "lab_breach", the first trigger of the timeline, has no crisis in the bank. */
  lemma LabBreachMissing()
    ensures FindCrisis(DefaultBank, "lab_breach") == None
  {
    NoIdStartsWithL();
    assert "lab_breach"[0] == 'l';
  }

  /** "social_unrest", the trigger several headlines share, is the fourteenth crisis of the bank. */
  lemma SocialUnrestFound()
    ensures FindCrisis(DefaultBank, "social_unrest") == Some(DefaultBank[13])
  {
    var id := "social_unrest";
    NoEarlierIdStartsWithS();
    assert id[0] == 's';
    assert forall i :: 0 <= i < 13 ==> DefaultBank[i].id != id;
    assert DefaultBank[13].id == id;
  }

  /** No id before the fourteenth starts with the letter s. */
  lemma NoEarlierIdStartsWithS()
    ensures forall j :: 0 <= j < 13 ==> 0 < |DefaultBank[j].id| && DefaultBank[j].id[0] != 's'
  {
  }

  /** Themes of three default crises, one per prefix and substring rule. */
  lemma DefaultThemes()
    ensures ThemeOf(DefaultBank[0].id) == Cyber
    ensures ThemeOf(DefaultBank[1].id) == Robot
    ensures ThemeOf(DefaultBank[15].id) == Nuclear
  {
    var id := DefaultBank[15].id;
    assert id[0] == 'n' && "cyber"[0] == 'c' && "ai"[0] == 'a';
    assert id[..5][0] != "cyber"[0];
    assert id[..2][0] != "ai"[0];
    assert StartsWith(id, "nuclear");
  }
}
