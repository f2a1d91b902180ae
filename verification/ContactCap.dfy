/** Contact limits, spacing and the once-only waits, over whole runs. */
module ContactCap {
  import opened Rows
  import opened GuardrailEngine
  import opened Protocol
  import opened LiveAction
  import opened History

  /** An action that has succeeded or still can: EXECUTED, or live and the newest. */
  predicate IsCounted(actions: seq<Action>, i: nat)
    requires i < |actions|
  {
    actions[i].status.Executed? || (i == |actions| - 1 && IsLive(actions[i]))
  }

  function Counted(actions: seq<Action>): set<nat> {
    set i: nat | i < |actions| && IsContact(actions[i].kind) && IsCounted(actions, i)
  }

  /** The counted contacts created in the seven days up to `to`. */
  function WeekUpTo(actions: seq<Action>, to: int): set<nat> {
    set i | i in Counted(actions) && to - 7 * DAY <= actions[i].createdAt <= to
  }

  ghost predicate Capped(actions: seq<Action>, g: Guardrails) {
    && |Counted(actions)| <= g.maxContacts
    && (forall t: int :: |WeekUpTo(actions, t)| <= g.maxContactsPerWeek)
    && (forall i, j :: i in Counted(actions) && j in Counted(actions) && i < j ==>
          actions[j].createdAt >= actions[i].createdAt + g.minIntervalHours * HOUR)
  }

  ghost predicate WaitsOnce(actions: seq<Action>) {
    forall i, j :: 0 <= i < j < |actions| && IsWait(actions[i].kind) && actions[i].kind == actions[j].kind
      ==> !(IsCounted(actions, i) && IsCounted(actions, j))
  }

  lemma {:induction false} SubsetIsSmaller<T>(a: set<T>, b: set<T>)
    requires a <= b
    ensures |a| <= |b|
    decreases a
  {
    if a != {} {
      var x :| x in a;
      SubsetIsSmaller(a - {x}, b - {x});
    }
  }

  /** A row that counts after a step, and was there before it, counted before it. */
  lemma CountedOnlyFromCounted(old': seq<Action>, new': seq<Action>, i: nat)
    requires RowsEvolve(old', new') && i < |old'|
    requires !old'[i].kind.FollowUpPtp?
    requires IsCounted(new', i)
    ensures IsCounted(old', i)
  {
  }

  lemma FewerCountedKeepsCap(old': seq<Action>, new': seq<Action>, g: Guardrails)
    requires Capped(old', g) && RowsEvolve(old', new')
    requires forall i :: |old'| <= i < |new'| ==> !IsContact(new'[i].kind)
    ensures Capped(new', g)
  {
    forall i | i in Counted(new') ensures i in Counted(old') && old'[i].createdAt == new'[i].createdAt {
      CountedOnlyFromCounted(old', new', i);
    }
    SubsetIsSmaller(Counted(new'), Counted(old'));
    forall t: int ensures |WeekUpTo(new', t)| <= g.maxContactsPerWeek {
      SubsetIsSmaller(WeekUpTo(new', t), WeekUpTo(old', t));
    }
  }

  lemma ExecutedContactsAreSeen(view: seq<Action>, past: seq<Action>, i: nat)
    requires SamePast(view, past) && i < |past|
    requires IsContact(past[i].kind) && past[i].status.Executed?
    ensures i in Contacts(view) && view[i].createdAt == past[i].createdAt
  {
  }

  /** The guardrail counts every older contact that still matters, so the new one fits. */
  lemma GuardedContactKeepsCap(
    old': seq<Action>, past: seq<Action>, new': seq<Action>, g: Guardrails, basis: Basis, view: seq<Action>)
    requires Capped(old', g) && RowsEvolve(old', new') && |past| == |old'|
    requires DecidedNext(past, new', g, basis)
    requires IsContact(new'[|past|].kind)
    requires PickedWithin(view, past, new'[|past|].kind, g, basis)
    ensures Capped(new', g)
  {
    var n := |past|;
    forall i | i in Counted(new') && i != n
      ensures i < n && i in Counted(old') && i in Contacts(view)
      ensures new'[i].createdAt == old'[i].createdAt == view[i].createdAt
    {
      CountedOnlyFromCounted(old', new', i);
      assert new'[i] == new'[..n][i];
      ExecutedContactsAreSeen(view, past, i);
    }
    SubsetIsSmaller(Counted(new') - {n}, Contacts(view));
    assert |Counted(new')| <= |Counted(new') - {n}| + 1;
    forall t: int ensures |WeekUpTo(new', t)| <= g.maxContactsPerWeek {
      var window := WeekUpTo(new', t);
      if n in window {
        SubsetIsSmaller(window - {n}, RecentContacts(view, basis.now));
      } else {
        SubsetIsSmaller(window, WeekUpTo(old', t));
      }
    }
  }

  lemma DecisionKeepsCap(old': seq<Action>, past: seq<Action>, new': seq<Action>, g: Guardrails, basis: Basis)
    requires Capped(old', g) && RowsEvolve(old', new') && |past| == |old'|
    requires DecidedNext(past, new', g, basis)
    ensures Capped(new', g)
  {
    if IsContact(new'[|past|].kind) {
      var view: seq<Action> :| PickedWithin(view, past, new'[|past|].kind, g, basis);
      GuardedContactKeepsCap(old', past, new', g, basis, view);
    } else {
      FewerCountedKeepsCap(old', new', g);
    }
  }

  lemma DecisionKeepsWaitsOnce(old': seq<Action>, past: seq<Action>, new': seq<Action>, g: Guardrails, basis: Basis)
    requires WaitsOnce(old') && RowsEvolve(old', new') && |past| == |old'|
    requires DecidedNext(past, new', g, basis)
    ensures WaitsOnce(new')
  {
    var n := |past|;
    assert forall i :: 0 <= i < n ==> new'[i] == new'[..n][i];
    var view: seq<Action> :| PickedWithin(view, past, new'[n].kind, g, basis);
    forall i, j | 0 <= i < j < |new'| && IsWait(new'[i].kind) && new'[i].kind == new'[j].kind
      ensures !(IsCounted(new', i) && IsCounted(new', j))
    {
      if IsCounted(new', i) && IsCounted(new', j) {
        if j < n {
          CountedOnlyFromCounted(old', new', i);
          CountedOnlyFromCounted(old', new', j);
        }
        assert false;
      }
    }
  }

  lemma FewerCountedKeepsWaitsOnce(old': seq<Action>, new': seq<Action>)
    requires WaitsOnce(old') && RowsEvolve(old', new')
    requires forall i :: |old'| <= i < |new'| ==> !IsWait(new'[i].kind)
    ensures WaitsOnce(new')
  {
    forall i, j | 0 <= i < j < |new'| && IsWait(new'[i].kind) && new'[i].kind == new'[j].kind
      ensures !(IsCounted(new', i) && IsCounted(new', j))
    {
      if IsCounted(new', i) && IsCounted(new', j) {
        CountedOnlyFromCounted(old', new', i);
        CountedOnlyFromCounted(old', new', j);
        assert false;
      }
    }
  }

  lemma RowsKeepCap(old': seq<Action>, new': seq<Action>, g: Guardrails, basis: Basis)
    requires Capped(old', g) && WaitsOnce(old')
    requires RowsEvolve(old', new') && AppendsByRule(old', new', g, basis)
    ensures Capped(new', g) && WaitsOnce(new')
  {
    if exists past: seq<Action> :: |past| == |old'| && DecidedNext(past, new', g, basis) {
      var past: seq<Action> :| |past| == |old'| && DecidedNext(past, new', g, basis);
      DecisionKeepsCap(old', past, new', g, basis);
      DecisionKeepsWaitsOnce(old', past, new', g, basis);
    } else {
      FewerCountedKeepsCap(old', new', g);
      FewerCountedKeepsWaitsOnce(old', new');
    }
  }

  lemma StepKeepsCap(s: Case, step: Step, cfg: Settings)
    requires Core(s) && IsEnabled(s, step)
    requires Capped(s.actions, cfg.guardrails) && WaitsOnce(s.actions)
    ensures var t := Apply(s, step, cfg);
            Capped(t.actions, cfg.guardrails) && WaitsOnce(t.actions)
  {
    var rows := Apply(s, step, cfg).actions;
    StepEvolvesRows(s, step, cfg);
    StepAppendsByRule(s, step, cfg);
    RowsKeepCap(s.actions, rows, cfg.guardrails, BasisOf(step, Apply(s, step, cfg)));
  }

  lemma OpenedCaseIsCapped(o: Opening, cfg: Settings)
    requires o.now <= o.at
    ensures Capped(Opened(o, cfg).actions, cfg.guardrails) && WaitsOnce(Opened(o, cfg).actions)
  {
    var rows := Opened(o, cfg).actions;
    if o.alreadyCaptured {
      FewerCountedKeepsCap([], rows, cfg.guardrails);
    } else {
      var start := Case(Diagnosed, if o.amount.Some? then o.amount.value else 0, o.currency, o.category, None,
                        o.subscriptionLinked, [], [], 1, [], [], o.at);
      DecideAppends(start, ByFailure, Seen([], 0), o.mode, cfg, o.now, o.at);
      RowsKeepCap([], rows, cfg.guardrails, Basis(start.amount, o.now, o.at));
    }
  }

  /** The contacts of the guardrail query created in the seven days up to `to`. */
  function ContactsUpTo(rows: seq<Action>, to: int): set<nat> {
    set i | i in Contacts(rows) && to - 7 * DAY <= rows[i].createdAt <= to
  }

  /** What the merchant policy promises about the contacts of a case, in the terms of the guardrail query. */
  lemma ContactsStayWithinLimits(s: Case, g: Guardrails, week: int)
    requires Core(s) && Capped(s.actions, g)
    ensures |Contacts(s.actions)| <= g.maxContacts
    ensures |ContactsUpTo(s.actions, week)| <= g.maxContactsPerWeek
    ensures forall i, j :: i in Contacts(s.actions) && j in Contacts(s.actions) && i < j ==>
              s.actions[j].createdAt - s.actions[i].createdAt >= g.minIntervalHours * HOUR
  {
    forall i | i in Contacts(s.actions) ensures i in Counted(s.actions) {
    }
    SubsetIsSmaller(Contacts(s.actions), Counted(s.actions));
    SubsetIsSmaller(ContactsUpTo(s.actions, week), WeekUpTo(s.actions, week));
  }
}
