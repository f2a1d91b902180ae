/**
  policy_engine.py, scorer.py and ml_policy.py in their own form: loops over rows, candidates and
  scored actions, each proved against the functions the protocol uses.
 */
module PolicyEngine {
  import opened Rows
  import opened GuardrailEngine
  import opened Ranking
  import opened PolicyDispatch

  function Positions(s: seq<nat>): set<nat> { set i | i in s }

  predicate Ascending(s: seq<nat>) { forall i, j :: 0 <= i < j < |s| ==> s[i] < s[j] }

  lemma {:induction false} AscendingHasNoDuplicates(s: seq<nat>)
    requires Ascending(s)
    ensures |Positions(s)| == |s|
  {
    if s != [] {
      var init := s[..|s| - 1];
      AscendingHasNoDuplicates(init);
      assert s == init + [s[|s| - 1]];
      assert Positions(s) == Positions(init) + {s[|s| - 1]};
    }
  }

  /** `_contacts_for_case`, as the list the query returns. */
  method ContactsForCase(rows: seq<Action>) returns (contacts: seq<nat>)
    ensures Positions(contacts) == Contacts(rows) && |contacts| == |Contacts(rows)|
    ensures forall j :: 0 <= j < |contacts| ==> contacts[j] in Contacts(rows)
    ensures forall k :: k in Contacts(rows) ==> k in contacts
  {
    contacts := [];
    for i := 0 to |rows|
      invariant Ascending(contacts) && forall j :: 0 <= j < |contacts| ==> contacts[j] < i
      invariant forall k :: k in contacts <==> k < i && k in Contacts(rows)
    {
      if IsContact(rows[i].kind) && (rows[i].status.Scheduled? || rows[i].status.Executed?) {
        contacts := contacts + [i];
      }
    }
    AscendingHasNoDuplicates(contacts);
  }

  /** `_check_action_allowed`: the wait rule, the amount cap, the two contact caps and the cooldown. */
  method CheckActionAllowed(rows: seq<Action>, amount: int, kind: ActionType, g: Guardrails, now: int)
    returns (allowed: bool)
    ensures allowed == Permitted(rows, amount, kind, g, now) == Allowed(rows, amount, kind, g, now)
  {
    AllowedExactly(rows, amount, kind, g, now);
    if IsWait(kind) {
      if WaitCompleted(rows, kind) {
        return false;
      }
    }
    if IsContact(kind) && amount > g.maxAutomatedAmount {
      return false;
    }
    if IsContact(kind) {
      var contacts := ContactsForCase(rows);
      if |contacts| >= g.maxContacts {
        return false;
      }
      var recent := CountRecent(rows, contacts, now);
      if recent >= g.maxContactsPerWeek {
        return false;
      }
      if |contacts| > 0 {
        var last := LastContactAt(rows, contacts);
        if now < last + g.minIntervalHours * HOUR {
          assert !CooledDown(rows, g, now);
          return false;
        }
      }
    }
    return true;
  }

  method CountRecent(rows: seq<Action>, contacts: seq<nat>, now: int) returns (n: nat)
    requires Positions(contacts) == Contacts(rows) && |contacts| == |Contacts(rows)|
    ensures n == |RecentContacts(rows, now)|
  {
    var recent := {};
    n := 0;
    for i := 0 to |contacts|
      invariant forall k :: k in recent <==> k in contacts[..i] && k < |rows| && rows[k].createdAt >= now - 7 * DAY
      invariant n == |recent|
    {
      var c := contacts[i];
      assert c in Positions(contacts);
      NoRepeat(contacts, i);
      if rows[c].createdAt >= now - 7 * DAY {
        recent := recent + {c};
        n := n + 1;
      }
    }
    assert contacts[..|contacts|] == contacts;
    assert recent == RecentContacts(rows, now) by {
      forall k ensures k in recent <==> k in RecentContacts(rows, now) {
        assert k in contacts <==> k in Positions(contacts);
      }
    }
  }

  lemma NoRepeat(s: seq<nat>, i: nat)
    requires |Positions(s)| == |s| && i < |s|
    ensures s[i] !in s[..i]
  {
    if s[i] in s[..i] {
      var rest := s[..i] + s[i + 1..];
      assert Positions(s) == Positions(rest) by {
        forall k | k in s ensures k in rest {
          var j :| 0 <= j < |s| && s[j] == k;
          if j < i {
            assert rest[j] == k;
          } else if j > i {
            assert rest[j - 1] == k;
          }
        }
      }
      PositionsAtMost(rest);
    }
  }

  lemma {:induction false} PositionsAtMost(s: seq<nat>)
    ensures |Positions(s)| <= |s|
  {
    if s != [] {
      var init := s[..|s| - 1];
      PositionsAtMost(init);
      assert s == init + [s[|s| - 1]];
      assert Positions(s) == Positions(init) + {s[|s| - 1]};
    }
  }

  method LastContactAt(rows: seq<Action>, contacts: seq<nat>) returns (last: int)
    requires contacts != [] && forall j :: 0 <= j < |contacts| ==> contacts[j] < |rows|
    ensures exists j :: 0 <= j < |contacts| && rows[contacts[j]].createdAt == last
    ensures forall j :: 0 <= j < |contacts| ==> rows[contacts[j]].createdAt <= last
  {
    last := rows[contacts[0]].createdAt;
    for i := 1 to |contacts|
      invariant exists j :: 0 <= j < |contacts| && rows[contacts[j]].createdAt == last
      invariant forall j :: 0 <= j < i ==> rows[contacts[j]].createdAt <= last
    {
      if rows[contacts[i]].createdAt > last {
        last := rows[contacts[i]].createdAt;
      }
    }
  }

  /** The candidate loop of `decide`: it records every candidate, and keeps the first allowed one. */
  method ChooseBaseline(seen: Seen, amount: int, category: Category, g: Guardrails, now: int)
    returns (chosen: ActionType, alternatives: map<ActionType, bool>)
    ensures chosen == BaselineChoice(seen, amount, category, g, now)
    ensures chosen in alternatives && alternatives[chosen]
    ensures chosen != Stop ==> forall k :: k in Candidates(category) ==> k in alternatives
    ensures chosen != Stop ==>
              forall k :: k in alternatives ==> alternatives[k] == Allowed(seen.rows, amount, k, g, now)
  {
    if seen.failures > g.maxTotalAttempts {
      return Stop, map[Stop := true];
    }
    var found: Option<ActionType>;
    found, alternatives := TryCandidates(Candidates(category), seen.rows, amount, g, now);
    if found.None? {
      if Escalate !in alternatives {
        alternatives := alternatives[Escalate := true];
      }
      return Escalate, alternatives;
    }
    return found.value, alternatives;
  }

  /** The loop itself: `found` is the first allowed candidate, `alternatives` the verdict on each of them. */
  method TryCandidates(candidates: seq<ActionType>, rows: seq<Action>, amount: int, g: Guardrails, now: int)
    returns (found: Option<ActionType>, alternatives: map<ActionType, bool>)
    ensures found.Some? ==> FirstAllowed(candidates, rows, amount, g, now) == found.value
    ensures found.Some? ==> found.value in candidates && Allowed(rows, amount, found.value, g, now)
    ensures found.None? ==> forall k :: k in candidates ==> !Allowed(rows, amount, k, g, now)
    ensures found.None? ==> FirstAllowed(candidates, rows, amount, g, now) == Escalate
    ensures forall k :: k in alternatives <==> k in candidates
    ensures forall k :: k in alternatives ==> alternatives[k] == Allowed(rows, amount, k, g, now)
  {
    found, alternatives := None, map[];
    for i := 0 to |candidates|
      invariant forall k :: k in alternatives <==> k in candidates[..i]
      invariant forall k :: k in alternatives ==> alternatives[k] == Allowed(rows, amount, k, g, now)
      invariant found.Some? ==> found.value in candidates && Allowed(rows, amount, found.value, g, now)
      invariant found.None? ==> forall j :: 0 <= j < i ==> !Allowed(rows, amount, candidates[j], g, now)
      invariant FirstAllowed(candidates, rows, amount, g, now)
             == if found.Some? then found.value else FirstAllowed(candidates[i..], rows, amount, g, now)
    {
      var kind := candidates[i];
      var allowed := CheckActionAllowed(rows, amount, kind, g, now);
      alternatives := alternatives[kind := allowed];
      if allowed && found.None? {
        found := Some(kind);
      }
      assert candidates[i..][1..] == candidates[i + 1..];
      assert candidates[..i + 1] == candidates[..i] + [kind];
    }
    assert candidates[..|candidates|] == candidates;
  }

  /** The guardrail loop and the semantic filter of `_adaptive_choose`. */
  method FeasibleActions(rows: seq<Action>, who: Subject, g: Guardrails, now: int) returns (kinds: seq<ActionType>)
    ensures kinds == Feasible(rows, who, g, now)
  {
    var allowed: seq<ActionType> := [];
    for i := 0 to |ALL_ACTIONS|
      invariant AllowedActions(ALL_ACTIONS, rows, who.amount, g, now)
             == allowed + AllowedActions(ALL_ACTIONS[i..], rows, who.amount, g, now)
    {
      var ok := CheckActionAllowed(rows, who.amount, ALL_ACTIONS[i], g, now);
      assert ALL_ACTIONS[i..][1..] == ALL_ACTIONS[i + 1..];
      if ok {
        allowed := allowed + [ALL_ACTIONS[i]];
      }
    }
    assert ALL_ACTIONS[|ALL_ACTIONS|..] == [];
    assert allowed == AllowedActions(ALL_ACTIONS, rows, who.amount, g, now);
    var sensible: seq<ActionType> := [];
    for i := 0 to |allowed|
      invariant Sensible(allowed, who) == sensible + Sensible(allowed[i..], who)
    {
      assert allowed[i..][1..] == allowed[i + 1..];
      if MakesSense(allowed[i], who) {
        sensible := sensible + [allowed[i]];
      }
    }
    assert allowed[|allowed|..] == [];
    kinds := if sensible == [] then allowed else sensible;
  }

  // ---- Scoring: rank by value first, add friction, rank again ----

  /** An entry as `rank_actions` builds it, before friction is known. */
  function BaseScore(kind: ActionType, model: ActionType -> real, rupees: real): Entry {
    Entry(kind, Probability(model, kind), Cost(kind), Value(kind, model, rupees), 0.0, 0.0)
  }

  function Enriched(e: Entry, contacts: nat, weight: real): Entry {
    e.(friction := Friction(e.action, contacts),
       utility := NetUtility(e.expectedValue, Friction(e.action, contacts), weight))
  }

  lemma EnrichedInPlace(e: Entry, friction: real, contacts: nat, weight: real)
    requires friction == Friction(e.action, contacts)
    ensures e.(friction := friction, utility := e.expectedValue - weight * friction) == Enriched(e, contacts, weight)
  {
  }

  function EnrichedAll(s: seq<Entry>, contacts: nat, weight: real): (r: seq<Entry>)
    ensures |r| == |s|
    ensures forall i :: 0 <= i < |r| ==> r[i] == Enriched(s[i], contacts, weight)
  {
    seq(|s|, i requires 0 <= i < |s| => Enriched(s[i], contacts, weight))
  }

  lemma {:induction false} EnrichCommutesWithInsert(x: Entry, s: seq<Entry>, contacts: nat, weight: real)
    ensures EnrichedAll(Insert(ExpectedValue, x, s), contacts, weight)
         == Insert(ExpectedValue, Enriched(x, contacts, weight), EnrichedAll(s, contacts, weight))
  {
    if s == [] || Key(ExpectedValue, s[0]) <= Key(ExpectedValue, x) {
      assert EnrichedAll([x] + s, contacts, weight)
          == [Enriched(x, contacts, weight)] + EnrichedAll(s, contacts, weight);
    } else {
      EnrichCommutesWithInsert(x, s[1..], contacts, weight);
      assert EnrichedAll(s, contacts, weight)[1..] == EnrichedAll(s[1..], contacts, weight);
    }
  }

  /** Adding friction does not disturb the order by expected value. */
  lemma {:induction false} EnrichCommutesWithSort(s: seq<Entry>, contacts: nat, weight: real)
    ensures EnrichedAll(SortDescending(ExpectedValue, s), contacts, weight)
         == SortDescending(ExpectedValue, EnrichedAll(s, contacts, weight))
  {
    if s != [] {
      EnrichCommutesWithSort(s[1..], contacts, weight);
      EnrichCommutesWithInsert(s[0], SortDescending(ExpectedValue, s[1..]), contacts, weight);
      assert EnrichedAll(s, contacts, weight)[1..] == EnrichedAll(s[1..], contacts, weight);
    }
  }

  /** `rank_actions`: None where a probability outside [0, 1] raises. */
  method RankActions(kinds: seq<ActionType>, model: ActionType -> real, rupees: real)
      returns (ranked: Option<seq<Entry>>)
    ensures ranked.Some? <==> ValidProbabilities(kinds, model)
    ensures ranked.Some? ==>
              ranked.value == SortDescending(ExpectedValue,
                  seq(|kinds|, i requires 0 <= i < |kinds| => BaseScore(kinds[i], model, rupees)))
  {
    var scored: seq<Entry> := [];
    for i := 0 to |kinds|
      invariant |scored| == i
      invariant forall j :: 0 <= j < i ==> scored[j] == BaseScore(kinds[j], model, rupees)
      invariant ValidProbabilities(kinds[..i], model)
    {
      var p := Probability(model, kinds[i]);
      if !(0.0 <= p <= 1.0) {
        assert kinds[i] in kinds;
        return None;
      }
      scored := scored + [Entry(kinds[i], p, Cost(kinds[i]), p * rupees - Cost(kinds[i]), 0.0, 0.0)];
      assert kinds[..i + 1] == kinds[..i] + [kinds[i]];
    }
    assert kinds[..|kinds|] == kinds;
    assert scored == seq(|kinds|, i requires 0 <= i < |kinds| => BaseScore(kinds[i], model, rupees));
    return Some(SortDescending(ExpectedValue, scored));
  }

  /** `rank_actions_with_friction` computes the lexicographic ranking of the fully scored actions. */
  method RankActionsWithFriction(kinds: seq<ActionType>, model: ActionType -> real, rupees: real, contacts: nat,
      weight: real)
    returns (ranked: Option<seq<Entry>>)
    ensures ranked.Some? <==> ValidProbabilities(kinds, model)
    ensures ranked.Some? ==> ranked.value == Ranked(Scores(kinds, model, rupees, contacts, weight))
  {
    var base := RankActions(kinds, model, rupees);
    if base.None? {
      return None;
    }
    var enriched: seq<Entry> := [];
    for i := 0 to |base.value|
      invariant |enriched| == i
      invariant forall j :: 0 <= j < i ==> enriched[j] == Enriched(base.value[j], contacts, weight)
    {
      var e := base.value[i];
      var friction := Friction(e.action, contacts);
      var full := e.(friction := friction, utility := e.expectedValue - weight * friction);
      EnrichedInPlace(e, friction, contacts, weight);
      enriched := enriched + [full];
    }
    assert enriched == EnrichedAll(base.value, contacts, weight);
    ghost var plain := seq(|kinds|, i requires 0 <= i < |kinds| => BaseScore(kinds[i], model, rupees));
    EnrichCommutesWithSort(plain, contacts, weight);
    assert EnrichedAll(plain, contacts, weight) == Scores(kinds, model, rupees, contacts, weight);
    return Some(SortDescending(Utility, enriched));
  }

  /** `_adaptive_choose`. */
  method AdaptiveChoose(seen: Seen, who: Subject, cfg: Settings, model: Model, now: int)
      returns (choice: Option<ActionType>)
    ensures choice == AdaptiveChoice(seen, who, cfg, model, now)
  {
    var kinds := FeasibleActions(seen.rows, who, cfg.guardrails, now);
    if model.NotTrained? {
      return None;
    }
    var contacts := ContactsForCase(seen.rows);
    var ranked := RankActionsWithFriction(kinds, model.probability, Rupees(who.amount), |contacts|, cfg.frictionWeight);
    if ranked.None? {
      return None;
    }
    if ranked.value == [] {
      return Some(Escalate);
    }
    return Some(ranked.value[0].action);
  }
}
