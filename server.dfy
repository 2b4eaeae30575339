/** The session logic of the demo API server: the in-memory `demoSession`
    record that the five demo endpoints update (parse the intent, build the
    agent manifest, select, connect and execute), the keyword fallback used
    when the language model cannot parse an intent, the ranking of the
    manifest, the parsing of an agent's answer into a workflow, the base URL
    of the agent network and the dev endpoint that emits a `node:log` event.
    Requests, responses and the network are not modelled: each handler takes
    what the network or the model returned as an input. */
module DemoApi {
  import opened Common
  import opened Text
  import opened Events

  // ---------------------------------------------------------------------
  // Base URL of the agent network

  /** `url.replace(/\/search\/?$/, "")`: one trailing `/search` or
      `/search/` is removed. */
  function StripSearchSuffix(url: string): (r: string)
    ensures r == url || r + "/search" == url || r + "/search/" == url
  {
    if |url| >= 8 && url[|url| - 8..] == "/search/" then
      assert url == url[..|url| - 8] + "/search/";
      url[..|url| - 8]
    else if |url| >= 7 && url[|url| - 7..] == "/search" then
      assert url == url[..|url| - 7] + "/search";
      url[..|url| - 7]
    else url
  }

  /** The search endpoint's URL, with or without a final slash, gives back
      the base it was formed from. */
  lemma SearchSuffixStripped(base: string)
    ensures StripSearchSuffix(base + "/search") == base
    ensures StripSearchSuffix(base + "/search/") == base
  {
    var a := base + "/search";
    assert a[|a| - 7..] == "/search";
    assert a[..|a| - 7] == base;
    if |a| >= 8 {
      assert a[|a| - 8..][7] == a[|a| - 1] == 'h';
    }
    var b := base + "/search/";
    assert b[|b| - 8..] == "/search/";
    assert b[..|b| - 8] == base;
  }

  // ---------------------------------------------------------------------
  // Intent fallback

  /** The keyword fallback of `parse-intent`, applied to the lower-cased
      message; the first group with a word in the message wins. */
  function KeywordIntent(message: string): (string, string)
  {
    var lower := LowerAscii(message);
    if Contains(lower, "flight") || Contains(lower, "travel") || Contains(lower, "book") then
      ("find_flights", "travel")
    else if Contains(lower, "research") || Contains(lower, "biotech") then
      ("generate_research_plan", "biotech")
    else if Contains(lower, "shop") || Contains(lower, "buy") || Contains(lower, "product") then
      ("product_search", "e-commerce")
    else ("general_task", "general")
  }

  /** The same rules as a table, in priority order. */
  datatype IntentRule = IntentRule(words: seq<string>, intent: string, domain: string)

  const INTENT_RULES: seq<IntentRule> := [
    IntentRule(["flight", "travel", "book"], "find_flights", "travel"),
    IntentRule(["research", "biotech"], "generate_research_plan", "biotech"),
    IntentRule(["shop", "buy", "product"], "product_search", "e-commerce")
  ]

  const GENERAL_INTENT: (string, string) := ("general_task", "general")

  /** Some word of `words` occurs in `text`. */
  function AnyWord(text: string, words: seq<string>): (b: bool)
    ensures b <==> exists i :: 0 <= i < |words| && Contains(text, words[i])
  {
    if words == [] then false
    else Contains(text, words[0]) || AnyWord(text, words[1..])
  }

  lemma AnyOfThree(text: string, a: string, b: string, c: string)
    ensures AnyWord(text, [a, b, c]) == (Contains(text, a) || Contains(text, b) || Contains(text, c))
  {
    assert [a, b, c][1..] == [b, c];
    assert [b, c][1..] == [c];
    assert [c][1..] == [];
    assert AnyWord(text, [c]) == Contains(text, c);
    assert AnyWord(text, [b, c]) == (Contains(text, b) || Contains(text, c));
  }

  lemma AnyOfTwo(text: string, a: string, b: string)
    ensures AnyWord(text, [a, b]) == (Contains(text, a) || Contains(text, b))
  {
    assert [a, b][1..] == [b];
    assert [b][1..] == [];
    assert AnyWord(text, [b]) == Contains(text, b);
  }

  /** The reference reading: the intent and domain of the first rule with a
      word in the text, the general intent when there is none. */
  function FirstRule(text: string, rules: seq<IntentRule>): (r: (string, string))
    ensures r == GENERAL_INTENT || exists i :: 0 <= i < |rules| && r == (rules[i].intent, rules[i].domain)
  {
    if rules == [] then GENERAL_INTENT
    else if AnyWord(text, rules[0].words) then (rules[0].intent, rules[0].domain)
    else
      var r := FirstRule(text, rules[1..]);
      assert r != GENERAL_INTENT ==> exists i :: 0 <= i < |rules| && r == (rules[i].intent, rules[i].domain) by {
        if r != GENERAL_INTENT {
          var i :| 0 <= i < |rules[1..]| && r == (rules[1..][i].intent, rules[1..][i].domain);
          assert r == (rules[i + 1].intent, rules[i + 1].domain);
        }
      }
      r
  }

  /** The chain of tests is the rule table read first to last. */
  lemma KeywordIntentIsFirstRule(message: string)
    ensures KeywordIntent(message) == FirstRule(LowerAscii(message), INTENT_RULES)
  {
    var lower := LowerAscii(message);
    var rules := INTENT_RULES;
    AnyOfThree(lower, "flight", "travel", "book");
    AnyOfTwo(lower, "research", "biotech");
    AnyOfThree(lower, "shop", "buy", "product");
    assert rules[1..] == [rules[1], rules[2]];
    assert rules[1..][1..] == [rules[2]];
    assert rules[1..][1..][1..] == [];
    assert rules[0].words == ["flight", "travel", "book"];
    assert rules[1].words == ["research", "biotech"];
    assert rules[2].words == ["shop", "buy", "product"];
    var r2 := FirstRule(lower, rules[1..][1..]);
    assert r2 == if AnyWord(lower, rules[2].words) then ("product_search", "e-commerce") else GENERAL_INTENT;
    var r1 := FirstRule(lower, rules[1..]);
    assert r1 == if AnyWord(lower, rules[1].words) then ("generate_research_plan", "biotech") else r2;
  }

  lemma LowerAsciiIdempotent(s: string)
    ensures LowerAscii(LowerAscii(s)) == LowerAscii(s)
  {
    var t := LowerAscii(s);
    forall i | 0 <= i < |s| ensures LowerAscii(t)[i] == t[i] {
      assert !('A' <= t[i] <= 'Z');
    }
  }

  /** Capitals do not change the fallback intent. */
  lemma KeywordIntentIgnoresCase(message: string)
    ensures KeywordIntent(LowerAscii(message)) == KeywordIntent(message)
  {
    LowerAsciiIdempotent(message);
  }

  // ---------------------------------------------------------------------
  // The session

  /** An agent of the manifest; the score is a trust value or a random
      fallback, compared as a number. */
  datatype Agent = Agent(id: string, name: string, provider: string, capabilities: seq<string>,
                         description: string, score: real, endpoint: string)

  datatype Session = Session(intent: string, domain: string, agents: seq<Agent>, shortlisted: seq<nat>,
                             selectedAgent: string, selectedEndpoint: string)

  const EMPTY_SESSION: Session := Session("", "", [], [], "", "")

  /** `parse-intent`: the model's answer if it gave one, otherwise the
      keyword fallback; the session is rebuilt with every other field
      cleared. */
  function ParseIntent(s: Session, message: string, parsed: Option<(string, string)>): Session
  {
    var (intent, domain) := if parsed.Some? then parsed.value else KeywordIntent(message);
    s.(intent := intent, domain := domain, agents := [], shortlisted := [], selectedAgent := "", selectedEndpoint := "")
  }

  /** Nothing of the previous session survives `parse-intent`. */
  lemma ParseIntentForgets(s1: Session, s2: Session, message: string, parsed: Option<(string, string)>)
    ensures ParseIntent(s1, message, parsed) == ParseIntent(s2, message, parsed)
    ensures ParseIntent(s1, message, parsed).agents == [] && ParseIntent(s1, message, parsed).selectedEndpoint == ""
  {
  }

  // ---------------------------------------------------------------------
  // The manifest

  /** An agent as the agent network lists it. */
  datatype RawAgent = RawAgent(id: string, name: string, endpoint: string, tags: Option<seq<string>>,
                               capabilities: Option<seq<string>>, description: Option<string>)

  /** The trust scores of the search results by agent id; a later result for
      the same id replaces an earlier one. */
  function ScoreMap(results: seq<(string, real)>): (m: map<string, real>)
    ensures forall i :: 0 <= i < |results| ==> results[i].0 in m
  {
    if results == [] then map[]
    else
      var last := results[|results| - 1];
      ScoreMap(results[..|results| - 1])[last.0 := last.1]
  }

  /** Each id gets the trust of its last search result. */
  lemma {:induction false} ScoreMapLastWins(results: seq<(string, real)>, i: nat)
    requires i < |results|
    requires forall j :: i < j < |results| ==> results[j].0 != results[i].0
    ensures ScoreMap(results)[results[i].0] == results[i].1
  {
    if i < |results| - 1 {
      ScoreMapLastWins(results[..|results| - 1], i);
    }
  }

  /** The agent built from a listed one: provider from the first tag, else
      "AgentGate"; the capabilities and description, else empty; the trust
      score, else the random fallback `roll`. */
  function ToAgent(raw: RawAgent, scores: map<string, real>, roll: real): Agent
  {
    Agent(raw.id, raw.name,
          if raw.tags.Some? && |raw.tags.value| > 0 then raw.tags.value[0] else "AgentGate",
          if raw.capabilities.Some? then raw.capabilities.value else [],
          if raw.description.Some? then raw.description.value else "",
          if raw.id in scores then scores[raw.id] else roll,
          raw.endpoint)
  }

  /** Non-increasing scores. */
  predicate SortedByScore(s: seq<Agent>) {
    forall i, j :: 0 <= i < j < |s| ==> s[i].score >= s[j].score
  }

  /** Inserts `a` after every element scoring at least as much. */
  function Insert(a: Agent, s: seq<Agent>): (r: seq<Agent>)
    ensures multiset(r) == multiset(s) + multiset{a}
  {
    if s == [] then [a]
    else if s[0].score >= a.score then
      assert s == [s[0]] + s[1..];
      [s[0]] + Insert(a, s[1..])
    else [a] + s
  }

  lemma {:induction false} InsertSorted(a: Agent, s: seq<Agent>)
    requires SortedByScore(s)
    ensures SortedByScore(Insert(a, s))
  {
    if s == [] {
    } else if s[0].score >= a.score {
      InsertSorted(a, s[1..]);
      InsertBounded(a, s[1..], s[0].score);
      ConsSorted(s[0], Insert(a, s[1..]));
    } else {
      ConsSorted(a, s);
    }
  }

  /** Inserting keeps every score under a common bound. */
  lemma {:induction false} InsertBounded(a: Agent, s: seq<Agent>, bound: real)
    requires a.score <= bound && forall i :: 0 <= i < |s| ==> s[i].score <= bound
    ensures forall i :: 0 <= i < |Insert(a, s)| ==> Insert(a, s)[i].score <= bound
  {
    if s != [] && s[0].score >= a.score {
      InsertBounded(a, s[1..], bound);
    }
  }

  /** An agent scoring at least as much as every agent of a sorted list can
      head it. */
  lemma ConsSorted(x: Agent, s: seq<Agent>)
    requires SortedByScore(s)
    requires s == [] || s[0].score <= x.score
    ensures SortedByScore([x] + s)
  {
    var r := [x] + s;
    forall i, j | 0 <= i < j < |r| ensures r[i].score >= r[j].score {
      assert r[j] == s[j - 1];
      if i > 0 {
        assert r[i] == s[i - 1];
      } else if j > 1 {
        assert s[0].score >= s[j - 1].score;
      }
    }
  }

  /** `.sort((a, b) => b.score - a.score)`, which is stable: insertion
      sort, each agent going after the earlier ones scoring at least as
      much. */
  function SortByScore(s: seq<Agent>): (r: seq<Agent>)
    ensures multiset(r) == multiset(s)
  {
    if s == [] then []
    else
      assert s == s[..|s| - 1] + [s[|s| - 1]];
      Insert(s[|s| - 1], SortByScore(s[..|s| - 1]))
  }

  lemma {:induction false} SortByScoreSorted(s: seq<Agent>)
    ensures SortedByScore(SortByScore(s))
  {
    if s != [] {
      SortByScoreSorted(s[..|s| - 1]);
      InsertSorted(s[|s| - 1], SortByScore(s[..|s| - 1]));
    }
  }

  const MANIFEST_SIZE: nat := 6
  const SHORTLIST_SIZE: nat := 5

  function Min(a: nat, b: nat): nat { if a <= b then a else b }

  /** The listed agents scored, ranked and cut to six; `rolls(i)` is the
      random score of the i-th listed agent. */
  function Scored(raws: seq<RawAgent>, results: seq<(string, real)>, rolls: nat -> real): (r: seq<Agent>)
    ensures |r| == |raws|
  {
    var scores := ScoreMap(results);
    seq(|raws|, i requires 0 <= i < |raws| => ToAgent(raws[i], scores, rolls(i)))
  }

  function Ranked(raws: seq<RawAgent>, results: seq<(string, real)>, rolls: nat -> real): seq<Agent>
  {
    var sorted := SortByScore(Scored(raws, results, rolls));
    sorted[..Min(MANIFEST_SIZE, |sorted|)]
  }

  /** The first five indices, or all of them when there are fewer. */
  function Shortlist(n: nat): seq<nat>
  {
    seq(Min(SHORTLIST_SIZE, n), i requires 0 <= i < Min(SHORTLIST_SIZE, n) => i)
  }

  /** The fixed manifest used when the agent network cannot be reached. */
  function FallbackAgents(base: string): seq<Agent>
  {
    [ Agent("agent_flight_travel", "FlightTravelAgent", "travel", ["flight_search", "travel_planning"],
            "Finds flight options from a local dataset.", 0.92, base + "/flight/run"),
      Agent("sim_legal", "SmartLegalAgent", "legal", ["contract_analysis", "compliance_check"],
            "Handles legal and contract requests.", 0.76, base + "/sim/sim_legal/run"),
      Agent("sim_health", "SmartHealthcareAgent", "health", ["symptom_triage", "doctor_booking"],
            "Handles healthcare and wellness requests.", 0.68, base + "/sim/sim_health/run"),
      Agent("sim_ecom1", "SmartShoppingAgent", "shopping", ["product_search", "checkout"],
            "Handles e-commerce and shopping requests.", 0.61, base + "/sim/sim_ecom1/run"),
      Agent("sim_ecom2", "SmartRetailAgent", "retail", ["product_search", "checkout"],
            "Handles retail product search.", 0.55, base + "/sim/sim_ecom2/run"),
      Agent("sim_legal2", "SmartComplianceAgent", "law", ["compliance_check"],
            "Handles compliance checks.", 0.43, base + "/sim/sim_legal2/run") ]
  }

  /** `GET /api/agents/manifest`: `listing` is the agent list and the search
      results, absent when either request fails. The session's agents and
      shortlist are replaced. */
  function Manifest(s: Session, base: string, listing: Option<(seq<RawAgent>, seq<(string, real)>)>, rolls: nat -> real): Session
  {
    var agents := if listing.Some? then Ranked(listing.value.0, listing.value.1, rolls) else FallbackAgents(base);
    s.(agents := agents, shortlisted := Shortlist(|agents|))
  }

  /** The manifest keeps the six best-scored listed agents, best first: no
      agent left out scores more than one kept. */
  lemma RankedTopSix(raws: seq<RawAgent>, results: seq<(string, real)>, rolls: nat -> real)
    ensures var all := Scored(raws, results, rolls);
      var kept := Ranked(raws, results, rolls);
      |kept| == Min(MANIFEST_SIZE, |raws|)
      && SortedByScore(kept)
      && multiset(kept) <= multiset(all)
      && (forall x, y :: x in multiset(kept) && y in multiset(all) - multiset(kept) ==> x.score >= y.score)
  {
    var all := Scored(raws, results, rolls);
    var sorted := SortByScore(all);
    SortByScoreSorted(all);
    assert |sorted| == |all| by {
      assert |multiset(sorted)| == |multiset(all)|;
    }
    TopOfSorted(sorted, Min(MANIFEST_SIZE, |sorted|));
  }

  /** A prefix of a score-ordered sequence scores at least as much as
      anything after it. */
  lemma TopOfSorted(sorted: seq<Agent>, k: nat)
    requires SortedByScore(sorted) && k <= |sorted|
    ensures SortedByScore(sorted[..k]) && multiset(sorted[..k]) <= multiset(sorted)
    ensures forall x, y :: x in multiset(sorted[..k]) && y in multiset(sorted) - multiset(sorted[..k]) ==> x.score >= y.score
  {
    var kept := sorted[..k];
    SplitMultiset(sorted, k);
    forall x: Agent, y: Agent | x in multiset(kept) && y in multiset(sorted) - multiset(kept) ensures x.score >= y.score {
      assert y in multiset(sorted[k..]);
      PrefixBeatsSuffix(sorted, k, x, y);
    }
  }

  lemma SplitMultiset(s: seq<Agent>, k: nat)
    requires k <= |s|
    ensures multiset(s) == multiset(s[..k]) + multiset(s[k..])
  {
    assert s == s[..k] + s[k..];
  }

  lemma PrefixBeatsSuffix(sorted: seq<Agent>, k: nat, x: Agent, y: Agent)
    requires SortedByScore(sorted) && k <= |sorted|
    requires x in sorted[..k] && y in sorted[k..]
    ensures x.score >= y.score
  {
    var i :| 0 <= i < k && sorted[..k][i] == x;
    var j :| 0 <= j < |sorted| - k && sorted[k..][j] == y;
    assert sorted[i] == x && sorted[k + j] == y;
  }

  /** The fallback manifest is already in score order, so its first five are
      its best five. */
  lemma FallbackRanked(base: string)
    ensures |FallbackAgents(base)| == MANIFEST_SIZE && SortedByScore(FallbackAgents(base))
  {
  }

  /** After the manifest request the shortlist is the first
      `min(5, n)` indices of the `n` agents, at most six of them, and the
      rest of the session is untouched. */
  lemma ManifestShortlist(s: Session, base: string, listing: Option<(seq<RawAgent>, seq<(string, real)>)>, rolls: nat -> real)
    ensures var s' := Manifest(s, base, listing, rolls);
      |s'.agents| <= MANIFEST_SIZE
      && |s'.shortlisted| == Min(SHORTLIST_SIZE, |s'.agents|)
      && (forall i :: 0 <= i < |s'.shortlisted| ==> s'.shortlisted[i] == i && s'.shortlisted[i] < |s'.agents|)
      && s' == s.(agents := s'.agents, shortlisted := s'.shortlisted)
  {
    if listing.Some? {
      RankedTopSix(listing.value.0, listing.value.1, rolls);
    }
  }

  // ---------------------------------------------------------------------
  // Select and connect

  function Names(agents: seq<Agent>): (r: seq<string>)
    ensures |r| == |agents| && forall i :: 0 <= i < |r| ==> r[i] == agents[i].name
  {
    seq(|agents|, i requires 0 <= i < |agents| => agents[i].name)
  }

  /** `agents.find(a => names.includes(a.name))`, as an index. */
  function FirstNamed(agents: seq<Agent>, names: seq<string>): (r: Option<nat>)
    ensures r.Some? ==> r.value < |agents| && agents[r.value].name in names
                        && forall j :: 0 <= j < r.value ==> agents[j].name !in names
    ensures r.None? ==> forall j :: 0 <= j < |agents| ==> agents[j].name !in names
  {
    if agents == [] then None
    else if agents[0].name in names then Some(0)
    else
      var r := FirstNamed(agents[1..], names);
      if r.Some? then
        assert forall j :: 1 <= j < r.value + 1 ==> agents[j] == agents[1..][j - 1];
        Some(r.value + 1)
      else None
  }

  /** The agent a lookup settles on: the first named one, else the first of
      the manifest, else none. */
  function Chosen(agents: seq<Agent>, names: seq<string>): Option<Agent>
  {
    match FirstNamed(agents, names)
    case Some(i) => Some(agents[i])
    case None => if |agents| > 0 then Some(agents[0]) else None
  }

  /** Records the chosen agent, if any, as the selection. */
  function Record(s: Session, chosen: Option<Agent>): Session
  {
    if chosen.Some? then s.(selectedAgent := chosen.value.name, selectedEndpoint := chosen.value.endpoint) else s
  }

  /** `Math.round(x * 100) / 100`: `x` to two decimals, halves rounded up. */
  function Round2(x: real): (r: real)
    ensures (r * 100.0).Floor as real == r * 100.0
    ensures x - 0.005 < r <= x + 0.005
    ensures (x * 100.0).Floor as real == x * 100.0 ==> r == x
  {
    var f := (x * 100.0 + 0.5).Floor;
    assert f as real <= x * 100.0 + 0.5 < f as real + 1.0;
    assert (x * 100.0).Floor as real == x * 100.0 ==> f == (x * 100.0).Floor;
    (f as real) / 100.0
  }

  /** `POST /api/agents/select`: the selection is the candidates, or the
      names of the first three agents when there are none; the confidence is
      the top agent's score, 0.85 without agents. */
  function Select(s: Session, candidates: seq<string>): (Session, seq<string>, real)
  {
    var selected := if |candidates| > 0 then candidates else Names(s.agents[..Min(3, |s.agents|)]);
    var confidence := if |s.agents| > 0 then Round2(s.agents[0].score) else 0.85;
    (Record(s, Chosen(s.agents, selected)), selected, confidence)
  }

  /** The session takes the first manifest agent named in the selection,
      else the first agent; without agents it is unchanged. With no
      candidates the first agent is the one taken. */
  lemma SelectChoice(s: Session, candidates: seq<string>)
    ensures var (s', selected, confidence) := Select(s, candidates);
      (candidates != [] ==> selected == candidates)
      && (candidates == [] ==>
            |selected| == Min(3, |s.agents|)
            && forall k :: 0 <= k < |selected| ==> selected[k] == s.agents[k].name)
      && (|s.agents| > 0 ==> s.agents[0].score - 0.005 < confidence <= s.agents[0].score + 0.005
                             && (confidence * 100.0).Floor as real == confidence * 100.0)
      && (|s.agents| == 0 ==> confidence == 0.85)
      && (|s.agents| == 0 ==> s' == s)
      && (|s.agents| > 0 ==>
            exists i :: 0 <= i < |s.agents|
              && s' == s.(selectedAgent := s.agents[i].name, selectedEndpoint := s.agents[i].endpoint)
              && (forall j :: 0 <= j < i ==> s.agents[j].name !in selected)
              && (s.agents[i].name in selected || (i == 0 && forall j :: 0 <= j < |s.agents| ==> s.agents[j].name !in selected)))
      && (candidates == [] && |s.agents| > 0 ==> s'.selectedAgent == s.agents[0].name && |selected| == Min(3, |s.agents|))
  {
    var selected := Select(s, candidates).1;
    if candidates == [] && |s.agents| > 0 {
      assert selected[0] == s.agents[0].name;
    }
  }

  /** The reply of `connect`: it always reports the connection established,
      for the requested agent and context. */
  datatype ConnectReply = ConnectReply(establishConnection: bool, agent: string, context: Json)

  /** `POST /api/agents/connect`. */
  function Connect(s: Session, agent: string, context: Json): (Session, ConnectReply)
  {
    (Record(s, Chosen(s.agents, [agent])), ConnectReply(true, agent, context))
  }

  /** Connecting to a manifest agent selects the first agent of that name;
      an unknown name selects the first agent; without agents nothing
      changes. The reply echoes the request whatever happened. */
  lemma ConnectChoice(s: Session, agent: string, context: Json)
    ensures var (s', reply) := Connect(s, agent, context);
      reply == ConnectReply(true, agent, context)
      && (|s.agents| == 0 ==> s' == s)
      && ((exists i :: 0 <= i < |s.agents| && s.agents[i].name == agent) ==>
            s'.selectedAgent == agent
            && exists i :: 0 <= i < |s.agents| && s.agents[i].name == agent && s'.selectedEndpoint == s.agents[i].endpoint
                           && forall j :: 0 <= j < i ==> s.agents[j].name != agent)
      && ((forall i :: 0 <= i < |s.agents| ==> s.agents[i].name != agent) && |s.agents| > 0 ==>
            s' == s.(selectedAgent := s.agents[0].name, selectedEndpoint := s.agents[0].endpoint))
  {
    var r := FirstNamed(s.agents, [agent]);
    if exists i :: 0 <= i < |s.agents| && s.agents[i].name == agent {
      var i :| 0 <= i < |s.agents| && s.agents[i].name == agent;
      assert s.agents[i].name in [agent];
      assert r.Some?;
    }
  }

  // ---------------------------------------------------------------------
  // Execute

  datatype WorkItem = WorkItem(action: string, priority: string)

  const ACTION_LENGTH: nat := 120

  /** The priority of the item at a position. */
  function Priority(i: nat): string {
    if i == 0 then "high" else if i == 1 then "medium" else "low"
  }

  /** The characters of `[\d.\-*]`. */
  predicate IsBulletChar(c: char) {
    IsDigit(c) || c == '.' || c == '-' || c == '*'
  }

  /** The first index from `i` on that does not hold a bullet character. */
  function BulletRunEnd(s: string, i: nat): (j: nat)
    requires i <= |s|
    ensures i <= j <= |s| && (forall k :: i <= k < j ==> IsBulletChar(s[k]))
    ensures j == |s| || !IsBulletChar(s[j])
    decreases |s| - i
  {
    if i < |s| && IsBulletChar(s[i]) then BulletRunEnd(s, i + 1) else i
  }

  /** `line.replace(/^[\d.\-*]+\s*\/, "")`: a leading run of digits, dots,
      dashes and stars is removed with the white space after it. */
  function StripBullet(line: string): (r: string)
    ensures |r| <= |line| && r == line[|line| - |r|..]
    ensures forall i :: 0 <= i < |line| - |r| ==> IsBulletChar(line[i]) || IsSpace(line[i])
    ensures r != line ==> IsBulletChar(line[0])
    ensures line != [] && IsBulletChar(line[0]) ==> r == [] || (!IsSpace(r[0]) && r != line)
  {
    var k := BulletRunEnd(line, 0);
    if k == 0 then line
    else
      var j := SpaceRunEnd(line, k);
      assert j < |line| ==> line[j..][0] == line[j];
      line[j..]
  }

  /** The action of a workflow item made from an answer line. */
  function CleanAction(line: string): (r: string)
    ensures |r| <= ACTION_LENGTH
  {
    Take(Trim(StripBullet(line)), ACTION_LENGTH)
  }

  /** `lines.filter(l => l.trim())`. */
  function NonBlank(lines: seq<string>): (r: seq<string>)
    ensures |r| <= |lines|
    ensures forall x :: x in r <==> x in lines && Trim(x) != ""
  {
    if lines == [] then []
    else if Trim(lines[0]) != "" then [lines[0]] + NonBlank(lines[1..])
    else NonBlank(lines[1..])
  }

  /** The workflow read from an agent's answer: one item for each of the
      first three non-blank lines, by priority; an answer without such a
      line becomes a single high-priority item holding its first 120
      characters. */
  function ParseWorkflow(answer: string): seq<WorkItem>
  {
    var lines := NonBlank(Split(answer, '\n'));
    var n := Min(3, |lines|);
    var items := seq(n, i requires 0 <= i < n => WorkItem(CleanAction(lines[i]), Priority(i)));
    if items == [] then [WorkItem(Take(answer, ACTION_LENGTH), "high")] else items
  }

  /** The workflow answered when no agent produced one. */
  function DefaultWorkflow(task: string, domain: string): seq<WorkItem>
  {
    [WorkItem(task + "_analysis", "high"), WorkItem(domain + "_review", "medium")]
  }

  /** `POST /api/agents/execute`. `answer` is the selected agent's answer,
      absent when its request fails; it is asked only when an endpoint has
      been selected. */
  function Execute(s: Session, task: string, domain: string, answer: Option<string>): (seq<WorkItem>, string)
  {
    if s.selectedEndpoint == "" || answer.None? then (DefaultWorkflow(task, domain), "ready")
    else (ParseWorkflow(answer.value), "completed")
  }

  /** A parsed workflow has one to three items, priorities high, medium, low
      by position and actions of at most 120 characters; with non-blank
      lines, item i comes from the i-th of them. */
  lemma WorkflowShape(answer: string)
    ensures var w := ParseWorkflow(answer);
      var lines := NonBlank(Split(answer, '\n'));
      1 <= |w| <= 3
      && (forall i :: 0 <= i < |w| ==> w[i].priority == Priority(i) && |w[i].action| <= ACTION_LENGTH)
      && (|lines| > 0 ==> |w| == Min(3, |lines|) && forall i :: 0 <= i < |w| ==> w[i].action == CleanAction(lines[i]))
      && (|lines| == 0 ==> w == [WorkItem(Take(answer, ACTION_LENGTH), "high")])
  {
  }

  /** Without a selected endpoint, or when the agent cannot be reached, the
      reply is the two-item default with status "ready"; otherwise it is the
      parsed answer with status "completed", never the default. */
  lemma ExecuteCases(s: Session, task: string, domain: string, answer: Option<string>)
    ensures var (w, status) := Execute(s, task, domain, answer);
      (status == "ready" <==> s.selectedEndpoint == "" || answer.None?)
      && (status == "ready" ==> w == DefaultWorkflow(task, domain))
      && (status == "completed" ==> w == ParseWorkflow(answer.value) && 1 <= |w| <= 3)
  {
    if answer.Some? {
      WorkflowShape(answer.value);
    }
  }

  lemma {:induction false} BulletRunEndIs(s: string, i: nat, j: nat)
    requires i <= j <= |s|
    requires forall k :: i <= k < j ==> IsBulletChar(s[k])
    requires j == |s| || !IsBulletChar(s[j])
    ensures BulletRunEnd(s, i) == j
    decreases j - i
  {
    if i < j {
      BulletRunEndIs(s, i + 1, j);
    }
  }

  /** A numbered line loses its number: `12. Search flights` becomes
      `Search flights`. */
  lemma NumberedLine(n: nat, text: string)
    requires text != [] && !IsSpace(text[0]) && !IsBulletChar(text[0]) && !IsSpace(text[|text| - 1])
    requires |text| <= ACTION_LENGTH
    ensures StripBullet(NatToString(n) + ". " + text) == text
    ensures CleanAction(NatToString(n) + ". " + text) == text
  {
    NumberBullets(n, text);
    SpaceAfterNumber(n, text);
    TrimIdle(text);
  }

  /** The number and its dot are the leading bullet run of a numbered line. */
  lemma NumberBullets(n: nat, text: string)
    ensures BulletRunEnd(NatToString(n) + ". " + text, 0) == |NatToString(n)| + 1
  {
    var digits := NatToString(n);
    var line := digits + ". " + text;
    var m := |digits| + 1;
    forall k | 0 <= k < m ensures IsBulletChar(line[k]) {
      if k < |digits| { assert line[k] == digits[k]; }
    }
    assert line[m] == ' ';
    BulletRunEndIs(line, 0, m);
  }

  /** One space follows the dot, and the text starts right after it. */
  lemma SpaceAfterNumber(n: nat, text: string)
    requires text != [] && !IsSpace(text[0])
    ensures var line := NatToString(n) + ". " + text;
      SpaceRunEnd(line, |NatToString(n)| + 1) == |NatToString(n)| + 2
      && line[|NatToString(n)| + 2..] == text
  {
    var line := NatToString(n) + ". " + text;
    var m := |NatToString(n)| + 1;
    assert line[m] == ' ' && line[m + 1] == text[0];
    SpaceRunEndIs(line, m, m + 1);
    assert line[m + 1..] == text;
  }

  // ---------------------------------------------------------------------
  // Dev emit

  const BAD_REQUEST: nat := 400
  const MISSING_ACTION: string := "Missing required field: action"

  datatype DevEmitReply = Rejected(status: nat, error: string) | Emitted(event: AppEvent)

  /** `POST /api/dev/emit-node-log` with the parsed body. */
  function DevEmit(body: Json): DevEmitReply
  {
    var action := Field(body, "action");
    if action.None? || !Truthy(action.value) then Rejected(BAD_REQUEST, MISSING_ACTION)
    else Emitted(NodeLog(OrElse(Field(body, "source"), JStr("DevTerminal")),
                         OrElse(Field(body, "target"), JStr("Frontend")),
                         action.value,
                         OrElse(Field(body, "payload"), JObj(map[]))))
  }

  /** A body without a truthy `action` is rejected with 400; otherwise one
      `node:log` event carries the action, and the source, target and
      payload given or, when absent or null, `DevTerminal`, `Frontend` and
      `{}`. */
  lemma DevEmitCases(body: Json)
    ensures var r := DevEmit(body);
      (r.Rejected? <==> !(body.JObj? && "action" in body.fields && Truthy(body.fields["action"])))
      && (r.Rejected? ==> r == Rejected(400, MISSING_ACTION))
      && (r.Emitted? ==>
            r.event.action == body.fields["action"]
            && (r.event.source == if "source" in body.fields && body.fields["source"] != JNull then body.fields["source"] else JStr("DevTerminal"))
            && (r.event.target == if "target" in body.fields && body.fields["target"] != JNull then body.fields["target"] else JStr("Frontend"))
            && (r.event.payload == if "payload" in body.fields && body.fields["payload"] != JNull then body.fields["payload"] else JObj(map[])))
  {
  }

  // ---------------------------------------------------------------------
  // The server

  /** The API server's state: the demo session record, reassigned and
      updated field by field by the handlers. */
  class DemoServer {
    var session: Session
    /** The agent network's base URL, derived once from the configured
        search URL. */
    const agentNetworkBase: string

    constructor (agentHubUrl: string)
      ensures session == EMPTY_SESSION && agentNetworkBase == StripSearchSuffix(agentHubUrl)
    {
      session := EMPTY_SESSION;
      agentNetworkBase := StripSearchSuffix(agentHubUrl);
    }

    method HandleParseIntent(message: string, parsed: Option<(string, string)>) returns (intent: string, domain: string)
      modifies this
      ensures session == ParseIntent(old(session), message, parsed)
      ensures intent == session.intent && domain == session.domain
    {
      if parsed.Some? {
        intent, domain := parsed.value.0, parsed.value.1;
      } else {
        var fallback := KeywordIntent(message);
        intent, domain := fallback.0, fallback.1;
      }
      session := Session(intent, domain, [], [], "", "");
    }

    method HandleManifest(listing: Option<(seq<RawAgent>, seq<(string, real)>)>, rolls: nat -> real)
      returns (agents: seq<Agent>, shortlisted: seq<nat>)
      modifies this
      ensures session == Manifest(old(session), agentNetworkBase, listing, rolls)
      ensures agents == session.agents && shortlisted == session.shortlisted
    {
      if listing.Some? {
        agents := Ranked(listing.value.0, listing.value.1, rolls);
      } else {
        agents := FallbackAgents(agentNetworkBase);
      }
      shortlisted := Shortlist(|agents|);
      session := session.(agents := agents);
      session := session.(shortlisted := shortlisted);
    }

    method HandleSelect(candidates: seq<string>) returns (selected: seq<string>, confidence: real)
      modifies this
      ensures (session, selected, confidence) == Select(old(session), candidates)
    {
      if |candidates| > 0 {
        selected := candidates;
      } else {
        selected := Names(session.agents[..Min(3, |session.agents|)]);
      }
      confidence := if |session.agents| > 0 then Round2(session.agents[0].score) else 0.85;
      var top := Chosen(session.agents, selected);
      if top.Some? {
        session := session.(selectedAgent := top.value.name);
        session := session.(selectedEndpoint := top.value.endpoint);
      }
    }

    method HandleConnect(agent: string, context: Json) returns (reply: ConnectReply)
      modifies this
      ensures (session, reply) == Connect(old(session), agent, context)
    {
      var chosen := Chosen(session.agents, [agent]);
      if chosen.Some? {
        session := session.(selectedAgent := chosen.value.name);
        session := session.(selectedEndpoint := chosen.value.endpoint);
      }
      reply := ConnectReply(true, agent, context);
    }

    method HandleExecute(task: string, domain: string, answer: Option<string>) returns (workflow: seq<WorkItem>, status: string)
      ensures (workflow, status) == Execute(session, task, domain, answer)
    {
      workflow, status := [], "ready";
      if session.selectedEndpoint != "" && answer.Some? {
        workflow := ParseWorkflow(answer.value);
        status := "completed";
      }
      if |workflow| == 0 {
        workflow := DefaultWorkflow(task, domain);
        status := "ready";
      }
    }
  }
}
