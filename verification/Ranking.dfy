/** ml/scorer.py, ml/costs.py and ml/friction.py: scoring and the two stacked stable sorts, over reals. */
module Ranking {
  import opened Rows

  datatype Entry = Entry(
    action: ActionType, probability: real, cost: real,
    expectedValue: real, friction: real, utility: real)

  function Cost(kind: ActionType): real {
    match kind
    case CreatePaymentLink => 5.0
    case ContactCustomer | CollectPromiseToPay => 15.0
    case Escalate => 50.0
    case _ => 0.0
  }

  function BaseFriction(kind: ActionType): real {
    match kind
    case Wait | Stop => 0.0
    case WaitForNativeRetry => 2.0
    case CreatePaymentLink => 25.0
    case ContactCustomer => 40.0
    case CollectPromiseToPay => 60.0
    case Escalate => 80.0
    case FollowUpPtp => 50.0
  }

  const CONTACT_INCREMENT: real := 12.0

  /** `compute_friction_score`. */
  function Friction(kind: ActionType, contacts: nat): real {
    BaseFriction(kind) + if IsContact(kind) then contacts as real * CONTACT_INCREMENT else 0.0
  }

  datatype Profile = RevenueFirst | Balanced | LowFriction

  function ProfileWeight(profile: Profile): real {
    match profile
    case RevenueFirst => 4.0
    case Balanced => 18.0
    case LowFriction => 45.0
  }

  /** `predict_recovery_probability`: STOP never recovers, the model answers for the rest. */
  function Probability(model: ActionType -> real, kind: ActionType): real {
    if kind.Stop? then 0.0 else model(kind)
  }

  /** Probability times amount minus cost, the part of the utility that no weight changes. */
  function Value(kind: ActionType, model: ActionType -> real, rupees: real): real {
    Probability(model, kind) * rupees - Cost(kind)
  }

  /** `compute_utility` on an already discounted value. */
  function NetUtility(value: real, friction: real, weight: real): real {
    value - weight * friction
  }

  function Score(kind: ActionType, model: ActionType -> real, rupees: real, contacts: nat, weight: real): Entry {
    var ev := Value(kind, model, rupees);
    Entry(kind, Probability(model, kind), Cost(kind), ev, Friction(kind, contacts),
          NetUtility(ev, Friction(kind, contacts), weight))
  }

  /** What an action costs: rupees,
      and friction points at the given weight; earlier contacts weigh on contacts alone. */
  function Burden(kind: ActionType, earlier: nat, weight: real): real {
    var worn := 12.0 * earlier as real;
    match kind
    case Wait => 0.0
    case WaitForNativeRetry => 2.0 * weight
    case CreatePaymentLink => 5.0 + (25.0 + worn) * weight
    case ContactCustomer => 15.0 + (40.0 + worn) * weight
    case CollectPromiseToPay => 15.0 + (60.0 + worn) * weight
    case Escalate => 50.0 + 80.0 * weight
    case Stop => 0.0
    case FollowUpPtp => 50.0 * weight
  }

  /**
    The utility of an action is what it is expected to recover less its burden, and STOP recovers
    nothing. So an action comes before WAIT by utility exactly if what it recovers beyond WAIT
    exceeds its burden.
   */
  lemma WorthExactly(kind: ActionType, model: ActionType -> real, rupees: real, contacts: nat, weight: real)
    ensures var s, w := Score(kind, model, rupees, contacts, weight), Score(Wait, model, rupees, contacts, weight);
            && s.utility == Probability(model, kind) * rupees - Burden(kind, contacts, weight)
            && (kind == Stop ==> s.utility == 0.0)
            && (s.utility > w.utility <==>
                (Probability(model, kind) - Probability(model, Wait)) * rupees > Burden(kind, contacts, weight))
  {
    var p, q := Probability(model, kind), Probability(model, Wait);
    assert (p - q) * rupees == p * rupees - q * rupees;
  }

  function Scores(kinds: seq<ActionType>, model: ActionType -> real, rupees: real, contacts: nat,
      weight: real): (s: seq<Entry>)
    ensures |s| == |kinds|
    ensures forall i :: 0 <= i < |s| ==> s[i] == Score(kinds[i], model, rupees, contacts, weight)
  {
    seq(|kinds|, i requires 0 <= i < |kinds| => Score(kinds[i], model, rupees, contacts, weight))
  }

  /** What the action is expected to recover is at least its burden. */
  predicate PaysForItself(kind: ActionType, model: ActionType -> real, rupees: real, contacts: nat, weight: real) {
    Probability(model, kind) * rupees >= Burden(kind, contacts, weight)
  }

  lemma BeatingStopPays(kind: ActionType, model: ActionType -> real, rupees: real, contacts: nat, weight: real)
    requires kind == Stop || Precedes(Utility, Score(kind, model, rupees, contacts, weight),
                                               Score(Stop, model, rupees, contacts, weight))
    ensures PaysForItself(kind, model, rupees, contacts, weight)
  {
    WorthExactly(kind, model, rupees, contacts, weight);
    WorthExactly(Stop, model, rupees, contacts, weight);
  }

  // ---- Stable descending sorts ----

  /** The keys a ranking is built from, in the order they are applied. */
  datatype Criterion = Position | ExpectedValue | Utility

  function Place(kind: ActionType): nat {
    match kind
    case Wait => 0 case WaitForNativeRetry => 1 case CreatePaymentLink => 2 case ContactCustomer => 3
    case CollectPromiseToPay => 4 case Escalate => 5 case Stop => 6 case FollowUpPtp => 7
  }

  function Key(c: Criterion, e: Entry): real {
    match c
    case Position => -(Place(e.action) as real)
    case ExpectedValue => e.expectedValue
    case Utility => e.utility
  }

  /** Lexicographic: utility, then expected value, then the order of ALL_ACTIONS. */
  predicate Precedes(c: Criterion, a: Entry, b: Entry)
    decreases match c case Position => 0 case ExpectedValue => 1 case Utility => 2
  {
    || Key(c, a) > Key(c, b)
    || (Key(c, a) == Key(c, b) && match c
        case Position => false
        case ExpectedValue => Precedes(Position, a, b)
        case Utility => Precedes(ExpectedValue, a, b))
  }

  ghost predicate SortedBy(c: Criterion, s: seq<Entry>) {
    forall i, j :: 0 <= i < j < |s| ==> Precedes(c, s[i], s[j])
  }

  /** Puts `x`, which stood before all of `s`, back into the descending order of `s`. */
  function Insert(c: Criterion, x: Entry, s: seq<Entry>): seq<Entry> {
    if s == [] || Key(c, s[0]) <= Key(c, x) then [x] + s else [s[0]] + Insert(c, x, s[1..])
  }

  /** `sorted(s, key=c, reverse=True)`: descending, equal keys stay in order. */
  function SortDescending(c: Criterion, s: seq<Entry>): seq<Entry> {
    if s == [] then [] else Insert(c, s[0], SortDescending(c, s[1..]))
  }

  /** `rank_actions_with_friction`: the expected-value sort, then the utility sort on top of it. */
  function Ranked(s: seq<Entry>): seq<Entry> {
    SortDescending(Utility, SortDescending(ExpectedValue, s))
  }

  function Coarser(c: Criterion): Criterion
    requires !c.Position?
  {
    if c.Utility? then ExpectedValue else Position
  }

  lemma PrecedesByKey(c: Criterion, a: Entry, b: Entry)
    requires !c.Position?
    ensures Precedes(c, a, b) <==>
            Key(c, a) > Key(c, b) || (Key(c, a) == Key(c, b) && Precedes(Coarser(c), a, b))
  {
  }

  lemma PrecedesIsAsymmetric(c: Criterion, a: Entry, b: Entry)
    requires Precedes(c, a, b)
    ensures !Precedes(c, b, a)
    decreases match c case Position => 0 case ExpectedValue => 1 case Utility => 2
  {
    if !c.Position? && Key(c, a) == Key(c, b) {
      PrecedesIsAsymmetric(Coarser(c), a, b);
    }
  }

  lemma PutInFrontKeepsOrder(c: Criterion, x: Entry, s: seq<Entry>)
    requires !c.Position? && SortedBy(c, s) && s != [] && Key(c, s[0]) <= Key(c, x)
    requires forall y :: y in s ==> Precedes(Coarser(c), x, y)
    ensures SortedBy(c, [x] + s)
  {
    forall y | y in s ensures Precedes(c, x, y) {
      PrecedesByKey(c, s[0], y);
      PrecedesByKey(c, x, y);
    }
  }

  lemma HeadStaysFirst(c: Criterion, x: Entry, s: seq<Entry>, t: seq<Entry>)
    requires !c.Position? && s != [] && SortedBy(c, s) && Key(c, s[0]) > Key(c, x)
    requires SortedBy(c, t) && multiset(t) == multiset([x]) + multiset(s[1..])
    ensures SortedBy(c, [s[0]] + t)
  {
    forall y | y in t ensures Precedes(c, s[0], y) {
      assert y in multiset(t);
      if y != x {
        assert y in multiset(s[1..]);
      }
    }
  }

  lemma {:induction false} InsertKeepsOrder(c: Criterion, x: Entry, s: seq<Entry>)
    requires !c.Position? && SortedBy(c, s)
    requires forall y :: y in s ==> Precedes(Coarser(c), x, y)
    ensures SortedBy(c, Insert(c, x, s))
    ensures multiset(Insert(c, x, s)) == multiset([x]) + multiset(s)
  {
    if s == [] {
    } else if Key(c, s[0]) <= Key(c, x) {
      PutInFrontKeepsOrder(c, x, s);
    } else {
      InsertKeepsOrder(c, x, s[1..]);
      assert s == [s[0]] + s[1..];
      HeadStaysFirst(c, x, s, Insert(c, x, s[1..]));
    }
  }

  /** A stable descending sort refines the order its input was already in. */
  lemma {:induction false} SortRefinesOrder(c: Criterion, s: seq<Entry>)
    requires !c.Position? && SortedBy(Coarser(c), s)
    ensures SortedBy(c, SortDescending(c, s))
    ensures multiset(SortDescending(c, s)) == multiset(s)
  {
    if s != [] {
      SortRefinesOrder(c, s[1..]);
      var t := SortDescending(c, s[1..]);
      forall y | y in t ensures Precedes(Coarser(c), s[0], y) {
        assert y in multiset(t);
        assert y in s[1..];
      }
      InsertKeepsOrder(c, s[0], t);
      assert s == [s[0]] + s[1..];
    }
  }

  /** The stacked sorts are a permutation of their input in one lexicographic order. */
  lemma RankedIsLexicographic(s: seq<Entry>)
    requires SortedBy(Position, s)
    ensures SortedBy(Utility, Ranked(s))
    ensures multiset(Ranked(s)) == multiset(s)
  {
    SortRefinesOrder(ExpectedValue, s);
    SortRefinesOrder(Utility, SortDescending(ExpectedValue, s));
  }

  /** A lexicographic order has one sorted permutation, so `Ranked` is the lexicographic sort. */
  lemma {:induction false} LexicographicSortIsUnique(s: seq<Entry>, t: seq<Entry>)
    requires SortedBy(Utility, s) && SortedBy(Utility, t)
    requires multiset(s) == multiset(t)
    ensures s == t
  {
    if s != [] {
      assert s[0] in multiset(t) && s[0] in t;
      assert t[0] in multiset(s) && t[0] in s;
      if s[0] != t[0] {
        PrecedesIsAsymmetric(Utility, s[0], t[0]);
        assert false;
      }
      assert s == [s[0]] + s[1..] && t == [t[0]] + t[1..];
      assert multiset(s[1..]) == multiset(s) - multiset([s[0]]);
      assert multiset(t[1..]) == multiset(t) - multiset([t[0]]);
      LexicographicSortIsUnique(s[1..], t[1..]);
    } else {
      assert |multiset(t)| == 0;
    }
  }

  /** Any lexicographically sorted permutation of the scored actions is the ranking. */
  lemma RankedIsTheLexicographicSort(s: seq<Entry>, t: seq<Entry>)
    requires SortedBy(Position, s)
    requires multiset(t) == multiset(s) && SortedBy(Utility, t)
    ensures t == Ranked(s)
  {
    RankedIsLexicographic(s);
    LexicographicSortIsUnique(t, Ranked(s));
  }

  predicate InPolicyOrder(kinds: seq<ActionType>) {
    forall i, j :: 0 <= i < j < |kinds| ==> Place(kinds[i]) < Place(kinds[j])
  }

  /** The first ranked action is the unique maximum of the scored actions. */
  lemma TopIsUniqueMaximum(kinds: seq<ActionType>, model: ActionType -> real, rupees: real, contacts: nat, weight: real)
    requires kinds != [] && InPolicyOrder(kinds)
    ensures var r := Ranked(Scores(kinds, model, rupees, contacts, weight));
            && r != [] && r[0].action in kinds
            && r[0] == Score(r[0].action, model, rupees, contacts, weight)
            && forall k :: k in kinds && k != r[0].action ==>
                 Precedes(Utility, r[0], Score(k, model, rupees, contacts, weight))
  {
    var s := Scores(kinds, model, rupees, contacts, weight);
    var r := Ranked(s);
    RankedIsLexicographic(s);
    assert |r| == |multiset(r)| == |multiset(s)| == |s|;
    assert r[0] in multiset(s) && r[0] in s;
    forall k | k in kinds && k != r[0].action
      ensures Precedes(Utility, r[0], Score(k, model, rupees, contacts, weight))
    {
      var i :| 0 <= i < |kinds| && kinds[i] == k;
      assert s[i] in multiset(r) && s[i] in r;
    }
  }

  function Top(kinds: seq<ActionType>, model: ActionType -> real, rupees: real, contacts: nat,
      weight: real): ActionType {
    var r := Ranked(Scores(kinds, model, rupees, contacts, weight));
    if r == [] then Escalate else r[0].action
  }

  lemma TopHasMaximalUtility(
    kinds: seq<ActionType>, model: ActionType -> real, rupees: real, contacts: nat, weight: real, other: ActionType)
    requires InPolicyOrder(kinds) && other in kinds
    ensures var top := Top(kinds, model, rupees, contacts, weight);
            && top in kinds
            && NetUtility(Value(top, model, rupees), Friction(top, contacts), weight)
            >= NetUtility(Value(other, model, rupees), Friction(other, contacts), weight)
  {
    TopIsUniqueMaximum(kinds, model, rupees, contacts, weight);
  }

  /**
    Raising a non-negative friction weight never moves the choice to an action with more
    friction or a higher expected value.
   */
  lemma FrictionIsMonotone(kinds: seq<ActionType>, model: ActionType -> real, rupees: real, contacts: nat, low: real,
      high: real)
    requires kinds != [] && InPolicyOrder(kinds)
    requires 0.0 <= low <= high
    ensures var a, b := Top(kinds, model, rupees, contacts, low), Top(kinds, model, rupees, contacts, high);
            && Friction(b, contacts) <= Friction(a, contacts)
            && Value(b, model, rupees) <= Value(a, model, rupees)
  {
    var a, b := Top(kinds, model, rupees, contacts, low), Top(kinds, model, rupees, contacts, high);
    TopHasMaximalUtility(kinds, model, rupees, contacts, low, kinds[0]);
    TopHasMaximalUtility(kinds, model, rupees, contacts, high, kinds[0]);
    TopHasMaximalUtility(kinds, model, rupees, contacts, low, b);
    TopHasMaximalUtility(kinds, model, rupees, contacts, high, a);
    if low < high {
      WeightsTradeOff(Value(a, model, rupees), Friction(a, contacts), Value(b, model, rupees), Friction(b, contacts),
          low, high);
    }
  }

  lemma WeightsTradeOff(v1: real, f1: real, v2: real, f2: real, low: real, high: real)
    requires 0.0 <= low < high
    requires NetUtility(v1, f1, low) >= NetUtility(v2, f2, low)
    requires NetUtility(v2, f2, high) >= NetUtility(v1, f1, high)
    ensures f2 <= f1 && v2 <= v1
  {
    var rise, drop := high - low, f1 - f2;
    assert rise * drop >= 0.0;
    assert drop >= 0.0;
    assert low * drop >= 0.0;
  }

  /** Hence revenue_first, balanced and low_friction are ordered by intrusiveness. */
  lemma ProfilesAreOrdered(kinds: seq<ActionType>, model: ActionType -> real, rupees: real, contacts: nat)
    requires kinds != [] && InPolicyOrder(kinds)
    ensures ProfileWeight(RevenueFirst) == 4.0 && ProfileWeight(Balanced) == 18.0 && ProfileWeight(LowFriction) == 45.0
    ensures var chosen := (p: Profile) => Top(kinds, model, rupees, contacts, ProfileWeight(p));
            && Friction(chosen(LowFriction), contacts) <= Friction(chosen(Balanced), contacts)
            && Friction(chosen(Balanced), contacts) <= Friction(chosen(RevenueFirst), contacts)
            && Value(chosen(LowFriction), model, rupees) <= Value(chosen(Balanced), model, rupees)
            && Value(chosen(Balanced), model, rupees) <= Value(chosen(RevenueFirst), model, rupees)
  {
    FrictionIsMonotone(kinds, model, rupees, contacts, 4.0, 18.0);
    FrictionIsMonotone(kinds, model, rupees, contacts, 18.0, 45.0);
  }
}
