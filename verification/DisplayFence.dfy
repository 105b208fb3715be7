/** The outage record of the display, and the failure budgets it protects.

    While the display is gone, clients that inherit its session cannot run. Their failures
    in that time are not held against them, and they are let through one by one when it is back. */
module DisplayFence {
  import opened RuntimePlanModel
  import opened DependencyGraph
  import opened NativeState

  /** What a component's failures have cost it: when they were, and until when it must wait. */
  datatype Budget = Budget(history: seq<nat>, backoff: Option<nat>)

  /** Who is to come back after the outage, who is not, and what was known of them when it began. */
  datatype Outage = Outage(
    id: nat, revision: nat, provider: string, consumers: seq<string>, dropped: seq<string>, servicesOnly: bool,
    foreground: seq<string>, budgets: map<string, Budget>, preexisting: set<string>, allowed: set<string>)

  /** A consumer was let through: in which outage, and with which budget. */
  datatype Admission = Admission(outage: nat, key: string, budget: Budget)

  const FAILURE_WINDOW_MS := 60_000
  const FAILURE_LIMIT := 5

  /** The failures that count at a given time. */
  function Recent(history: seq<nat>, now: nat): (r: seq<nat>)
    ensures forall t :: t in r <==> t in history && now - t < FAILURE_WINDOW_MS
  {
    if history == [] then []
    else (if now - history[0] < FAILURE_WINDOW_MS then [history[0]] else []) + Recent(history[1..], now)
  }

  /** The failures before a cutoff. */
  function Earlier(history: seq<nat>, cutoff: Option<nat>): (r: seq<nat>)
    ensures cutoff.None? ==> r == history
    ensures forall t :: t in r <==> t in history && (cutoff.Some? ==> t < cutoff.value)
  {
    if history == [] then []
    else (if cutoff.None? || history[0] < cutoff.value then [history[0]] else []) + Earlier(history[1..], cutoff)
  }

  function HistoryOf(m: map<string, seq<nat>>, key: string): seq<nat> {
    if key in m then m[key] else []
  }

  function BackoffOf(m: map<string, nat>, key: string): Option<nat> {
    if key in m then Some(m[key]) else None
  }

  class Fence {
    const visual: set<string>
    var outage: Option<Outage>
    var nextId: nat
    var failureHistory: map<string, seq<nat>>
    var backoff: map<string, nat>
    var quarantined: set<string>
    var quarantineTimes: map<string, nat>

    // History: the budgets each outage captured and which of them a rollback dropped again, who was let through, how
    // often a display was lost, and who was ever quarantined.
    ghost var captures: map<(nat, string), seq<Budget>>
    ghost var forgotten: set<(nat, string)>
    ghost var admissions: seq<Admission>
    ghost var losses: nat
    ghost var condemned: set<string>

    /** The record holds the captured budgets; a consumer is captured again only after a rollback dropped it; and
        whoever was let through had a captured budget. */
    ghost predicate Valid()
      reads this
    {
      && (forall k :: k in captures ==> k.0 < nextId && WellFiled(captures[k], k in forgotten))
      && (outage.Some? ==> outage.value.id < nextId && Captured(outage.value, captures, forgotten))
      && (forall a :: a in admissions ==> Rightly(a, captures))
      && quarantined <= condemned
    }

    constructor (visual: set<string>)
      ensures Valid() && this.visual == visual && outage == None && admissions == []
    {
      this.visual := visual;
      outage, nextId, failureHistory, backoff, quarantined, quarantineTimes := None, 1, map[], map[], {}, map[];
      captures, forgotten, admissions, losses, condemned := map[], {}, [], 0, {};
    }

    /** Unless a rollback dropped it from the record, a consumer is only ever let through with the one budget that its
        outage captured. */
    lemma AdmittedWithBaseline(a: Admission)
      requires Valid() && a in admissions && (a.outage, a.key) !in forgotten
      ensures (a.outage, a.key) in captures && captures[(a.outage, a.key)] == [a.budget]
    {
      assert Rightly(a, captures);
      assert WellFiled(captures[(a.outage, a.key)], false);
    }

    function CurrentBudget(key: string): Budget
      reads this
    {
      Budget(HistoryOf(failureHistory, key), BackoffOf(backoff, key))
    }

    ghost function Budgets(): (map<string, seq<nat>>, map<string, nat>, set<string>)
      reads this
    {
      (failureHistory, backoff, quarantined)
    }

    /** Must this component wait for the display? */
    predicate Blocks(key: string)
      reads this
    {
      outage.Some? && key in visual && key !in outage.value.allowed
    }

    /** Is the outage still the one that was looked at? */
    predicate Matches(snapshot: Outage)
      reads this
    {
      outage.Some? && outage.value.id == snapshot.id && outage.value.revision == snapshot.revision
    }

    /** A component failed. While it is fenced off, that costs it nothing. */
    method RecordFailure(key: string, now: nat) returns (delayMs: Option<nat>)
      requires Valid()
      modifies this
      ensures Valid()
      ensures outage == old(outage) && nextId == old(nextId) && backoff == old(backoff)
      ensures admissions == old(admissions) && losses == old(losses) && old(condemned) <= condemned
      ensures old(Blocks(key)) ==> delayMs == None && unchanged(this)
      ensures !old(Blocks(key)) ==>
        HistoryOf(failureHistory, key) == Recent(HistoryOf(old(failureHistory), key), now) + [now]
      ensures forall other :: other != key ==> HistoryOf(failureHistory, other) == HistoryOf(old(failureHistory), other)
      ensures !old(Blocks(key)) ==>
        var n := |HistoryOf(failureHistory, key)|;
        if n >= FAILURE_LIMIT then delayMs == None && quarantined == old(quarantined) + {key}
        else delayMs == Some(RestartDelay(n)) && quarantined == old(quarantined)
      ensures quarantineTimes == if delayMs == None && !old(Blocks(key)) then old(quarantineTimes)[key := now]
                                 else old(quarantineTimes)
    {
      if Blocks(key) {
        return None;
      }
      var failures := Recent(HistoryOf(failureHistory, key), now) + [now];
      failureHistory := failureHistory[key := failures];
      if |failures| >= FAILURE_LIMIT {
        quarantined := quarantined + {key};
        condemned := condemned + {key};
        quarantineTimes := quarantineTimes[key := now];
        return None;
      }
      delayMs := Some(RestartDelay(|failures|));
    }

    /** A process could not be started: a failure, and the next attempt has to wait. */
    method SpawnFailed(key: string, now: nat)
      requires Valid()
      modifies this
      ensures Valid() && outage == old(outage) && nextId == old(nextId)
      ensures admissions == old(admissions) && losses == old(losses) && old(condemned) <= condemned
      ensures old(quarantined) <= quarantined <= old(quarantined) + {key}
      ensures old(Blocks(key)) ==> unchanged(this)
      ensures forall other :: other != key ==> CurrentBudget(other) == old(CurrentBudget(other))
      ensures !old(Blocks(key)) && key !in quarantined ==>
        var n := |HistoryOf(failureHistory, key)|; n >= 1 && BackoffOf(backoff, key) == Some(now + RestartDelay(n))
    {
      var delay := RecordFailure(key, now);
      if delay.Some? {
        backoff := backoff[key := now + delay.value];
      }
    }

    /** A process was started: no attempt has to wait any more. */
    method Spawned(key: string)
      requires Valid()
      modifies `backoff
      ensures Valid() && CurrentBudget(key) == old(CurrentBudget(key)).(backoff := None)
      ensures forall other :: other != key ==> CurrentBudget(other) == old(CurrentBudget(other))
    {
      backoff := backoff - {key};
    }

    /** A component was changed in the catalog: what the old one did is forgotten. */
    method Renewed(key: string)
      requires Valid()
      modifies `failureHistory, `backoff, `quarantined, `quarantineTimes
      ensures Valid() && CurrentBudget(key) == Budget([], None) && quarantined == old(quarantined) - {key}
      ensures forall other :: other != key ==> CurrentBudget(other) == old(CurrentBudget(other))
    {
      failureHistory, backoff := failureHistory - {key}, backoff - {key};
      quarantined, quarantineTimes := quarantined - {key}, quarantineTimes - {key};
    }

    /** The display is lost: its consumers' budgets are captured. A loss during an outage keeps the record and what it
        captured, raises its revision, and takes back who was let through. */
    method BeginOutage(provider: string, ordered: seq<string>, dropped: seq<string>, servicesOnly: bool,
                       foreground: seq<string>, cutoff: Option<nat>)
      requires Valid()
      modifies this
      ensures Valid() && outage.Some? && outage.value.allowed == {} && losses == old(losses) + 1
      ensures admissions == old(admissions) && failureHistory == old(failureHistory) && backoff == old(backoff)
      ensures quarantined <= old(quarantined) && (cutoff.None? ==> quarantined == old(quarantined))
      ensures cutoff.Some? ==>
        Forgiven(ordered, cutoff.value, old(quarantined), old(quarantineTimes), quarantined, quarantineTimes)
      ensures condemned == old(condemned) && forgotten == old(forgotten)
      ensures outage.value.provider == provider && nextId >= old(nextId)
      ensures old(outage).None? ==>
        && outage.value.id == old(nextId) < nextId && outage.value.revision == 1 && outage.value.consumers == ordered
        && outage.value.foreground == foreground && outage.value.servicesOnly == servicesOnly
      ensures old(outage).Some? ==> nextId == old(nextId) && Later(old(outage).value, outage.value, 1)
      ensures KeepsFile(old(captures), captures)
      ensures forall c :: c in ordered ==> c in outage.value.consumers
      ensures forall c :: c in dropped ==> c in outage.value.dropped
      ensures forall c :: c in ordered && (old(outage).None? || c !in old(outage).value.consumers) ==>
        c in outage.value.budgets && outage.value.budgets[c] == old(Capture(c, cutoff))
      ensures old(outage).None? ==> outage.value.preexisting == set c | c in ordered && c in quarantined
    {
      if cutoff.Some? {
        Forgive(ordered, cutoff.value);
      }
      if outage.None? {
        OpenOutage(provider, ordered, dropped, servicesOnly, foreground, cutoff);
      } else {
        ReopenOutage(provider, ordered, dropped, cutoff);
      }
    }

    method OpenOutage(provider: string, ordered: seq<string>, dropped: seq<string>, servicesOnly: bool,
                      foreground: seq<string>, cutoff: Option<nat>)
      requires Valid() && outage.None?
      modifies `outage, `nextId, `captures, `losses
      ensures Valid() && losses == old(losses) + 1 && KeepsFile(old(captures), captures) && nextId == old(nextId) + 1
      ensures outage.Some? && outage.value.id == old(nextId) && outage.value.revision == 1 && outage.value.allowed == {}
      ensures outage.value.consumers == ordered && outage.value.dropped == dropped && outage.value.provider == provider
      ensures outage.value.foreground == foreground && outage.value.servicesOnly == servicesOnly
      ensures forall c :: c in ordered ==> c in outage.value.budgets && outage.value.budgets[c] == Capture(c, cutoff)
      ensures outage.value.preexisting == set c | c in ordered && c in quarantined
    {
      hide Captured, KeepsFile, Rightly, Earlier, WellFiled, HistoryOf, BackoffOf;
      var budgets := map c | c in ordered :: Capture(c, cutoff);
      File(Outage(nextId, 1, provider, ordered, dropped, servicesOnly, foreground, budgets,
                  set c | c in ordered && c in quarantined, {}));
    }

    /** A new record is filed and becomes the current one. */
    method File(o: Outage)
      requires Valid() && outage.None? && o.id == nextId && Recorded(o)
      modifies `outage, `nextId, `captures, `losses
      ensures Valid() && losses == old(losses) + 1 && KeepsFile(old(captures), captures) && nextId == old(nextId) + 1
      ensures outage == Some(o)
    {
      hide Captured, KeepsFile, Rightly, FileWith, WellFiled;
      FileFresh(captures, forgotten, o);
      StillRightly(admissions, captures, FileWith(captures, o));
      losses := losses + 1;
      captures := FileWith(captures, o);
      outage := Some(o);
      nextId := nextId + 1;
    }

    method ReopenOutage(provider: string, ordered: seq<string>, dropped: seq<string>, cutoff: Option<nat>)
      requires Valid() && outage.Some?
      modifies `outage, `captures, `losses
      ensures Valid() && losses == old(losses) + 1 && KeepsFile(old(captures), captures)
      ensures outage.Some? && Later(old(outage).value, outage.value, 1)
      ensures outage.value.allowed == {} && outage.value.provider == provider
      ensures forall c :: c in ordered ==> c in outage.value.consumers
      ensures forall c :: c in dropped ==> c in outage.value.dropped
      ensures forall c :: c in ordered && c !in old(outage).value.consumers ==>
        c in outage.value.budgets && outage.value.budgets[c] == Capture(c, cutoff)
    {
      hide Captured, KeepsFile, Continues, Rightly, Earlier, HistoryOf, BackoffOf, WellFiled;
      var was := outage.value;
      losses := losses + 1;
      var all := was.dropped + Unknown(dropped, was.dropped);
      SameRecord(was, was.revision + 1, provider, all, captures, forgotten);
      KeepsReflexive(captures);
      outage := Some(was.(revision := was.revision + 1, provider := provider, dropped := all, allowed := {}));
      for k := 0 to |ordered|
        invariant Valid() && outage.Some? && outage.value.allowed == {} && outage.value.provider == provider
        invariant outage.value.dropped == all && Later(was, outage.value, 1)
        invariant KeepsFile(old(captures), captures) && losses == old(losses) + 1
        invariant forall j :: 0 <= j < k ==> ordered[j] in outage.value.consumers
        invariant forall c :: c in outage.value.consumers && c !in was.consumers ==>
          c in outage.value.budgets && outage.value.budgets[c] == Capture(c, cutoff)
      {
        ghost var o, file := outage.value, captures;
        AddConsumer(ordered[k], cutoff);
        ContinuesTransitive(was, o, outage.value);
        KeepsTransitive(old(captures), file, captures);
      }
    }

    /** What the outage captures of a consumer's failures: only those the lost display cannot have caused. */
    function Capture(key: string, cutoff: Option<nat>): Budget
      reads this
    {
      Budget(Earlier(HistoryOf(failureHistory, key), cutoff), BackoffOf(backoff, key))
    }

    /** Takes a consumer into the record unless it is there already. */
    method AddConsumer(key: string, cutoff: Option<nat>)
      requires Valid() && outage.Some?
      modifies `outage, `captures
      ensures Valid() && outage.Some? && Continues(old(outage).value, outage.value) && key in outage.value.consumers
      ensures outage.value.revision == old(outage).value.revision && outage.value.allowed == old(outage).value.allowed
      ensures outage.value.provider == old(outage).value.provider && outage.value.dropped == old(outage).value.dropped
      ensures KeepsFile(old(captures), captures)
      ensures forall c :: c in outage.value.consumers <==> c in old(outage).value.consumers || c == key
      ensures forall c :: c in old(outage).value.budgets ==>
        c in outage.value.budgets && (c != key ==> outage.value.budgets[c] == old(outage).value.budgets[c])
      ensures key !in old(outage).value.consumers ==>
        key in outage.value.budgets && outage.value.budgets[key] == Capture(key, cutoff)
      ensures key in old(outage).value.consumers ==> outage == old(outage)
    {
      hide Captured, Rightly, WellFiled, KeepsFile, FiledOnce;
      var o := outage.value;
      if key in o.consumers {
        KeepsReflexive(captures);
        ContinuesReflexive(o);
        return;
      }
      var budget := Capture(key, cutoff);
      var preexisting := if key in quarantined then o.preexisting + {key} else o.preexisting;
      FileOne(captures, forgotten, o, key, budget, preexisting);
      StillRightly(admissions, captures, FiledOnce(captures, (o.id, key), budget));
      captures := FiledOnce(captures, (o.id, key), budget);
      outage := Some(o.(consumers := o.consumers + [key], budgets := o.budgets[key := budget],
                        preexisting := preexisting));
    }

    /** Quarantines as recent as the loss of the display are lifted. */
    method Forgive(ordered: seq<string>, cutoff: nat)
      modifies `quarantined, `quarantineTimes
      ensures Forgiven(ordered, cutoff, old(quarantined), old(quarantineTimes), quarantined, quarantineTimes)
    {
      ghost var before, times := quarantined, quarantineTimes;
      assert ordered[..0] == [];
      for k := 0 to |ordered|
        invariant Forgiven(ordered[..k], cutoff, before, times, quarantined, quarantineTimes)
      {
        var key := ordered[k];
        assert ordered[..k+1] == ordered[..k] + [key];
        if key in quarantined && key in quarantineTimes && quarantineTimes[key] >= cutoff {
          quarantined := quarantined - {key};
          quarantineTimes := quarantineTimes - {key};
        }
      }
      assert ordered[..|ordered|] == ordered;
    }

    /** A consumer gets back the budget the outage captured. */
    method RestoreBudget(o: Outage, key: string)
      modifies `failureHistory, `backoff
      ensures CurrentBudget(key) == BaselineIn(o, key)
      ensures forall other :: other != key ==> CurrentBudget(other) == old(CurrentBudget(other))
    {
      var baseline := BaselineIn(o, key);
      failureHistory :=
        if baseline.history != [] then failureHistory[key := baseline.history] else failureHistory - {key};
      backoff := if baseline.backoff.Some? then backoff[key := baseline.backoff.value] else backoff - {key};
    }

    /** Lets a consumer through, with the budget the outage had captured when it was looked at. */
    method Admit(o: Outage, key: string)
      requires Valid() && outage.Some? && Continues(o, outage.value)
      modifies `failureHistory, `backoff, `outage, `admissions
      ensures Valid() && outage == Some(old(outage).value.(allowed := old(outage).value.allowed + {key}))
      ensures CurrentBudget(key) == BaselineIn(o, key) && !Blocks(key)
      ensures old(admissions) <= admissions
      ensures key in o.budgets ==> admissions == old(admissions) + [Admission(o.id, key, CurrentBudget(key))]
    {
      hide WellFiled;
      var live := outage.value;
      RestoreBudget(o, key);
      if key in o.budgets {
        admissions := admissions + [Admission(o.id, key, CurrentBudget(key))];
      }
      outage := Some(live.(allowed := live.allowed + {key}));
    }

    /** Closes the fence behind a consumer. */
    method Discard(key: string)
      requires Valid()
      modifies `outage
      ensures Valid()
      ensures outage ==
        if old(outage).Some? then Some(old(outage).value.(allowed := old(outage).value.allowed - {key})) else None
    {
      hide WellFiled;
      if outage.Some? {
        outage := Some(outage.value.(allowed := outage.value.allowed - {key}));
      }
    }

    /** Puts a record back as it was looked at, with nobody let through. Losses since then are no longer seen in its
        revision, and the consumers they added are forgotten. */
    method Reinstate(snapshot: Outage)
      requires Valid() && outage.Some? && Continues(snapshot, outage.value) && Recorded(snapshot)
      modifies `outage, `forgotten
      ensures Valid() && outage == Some(snapshot.(allowed := {})) && old(forgotten) <= forgotten
      ensures forall c :: (snapshot.id, c) in forgotten && (snapshot.id, c) !in old(forgotten) ==>
        c in old(outage).value.consumers && c !in snapshot.consumers
    {
      hide WellFiled, Rightly;
      ghost var live := outage.value;
      ghost var lost := set c | c in live.budgets && c !in snapshot.budgets :: (snapshot.id, c);
      Forgets(captures, forgotten, live, snapshot, lost);
      forgotten := forgotten + lost;
      outage := Some(snapshot.(allowed := {}));
    }

    method LiftQuarantine(key: string)
      requires Valid()
      modifies `quarantined, `quarantineTimes
      ensures Valid() && quarantined == old(quarantined) - {key} && quarantineTimes == old(quarantineTimes) - {key}
    {
      quarantined := quarantined - {key};
      quarantineTimes := quarantineTimes - {key};
    }

    /** The outage is over; only whoever still looks at the right record may say so. */
    method Clear(ghost snapshot: Outage)
      requires Valid() && Matches(snapshot)
      modifies `outage
      ensures Valid() && outage == None
    {
      outage := None;
    }
  }

  /** A rollback takes the revision back: here to 1, although the display was lost twice. */
  method LossForgotten(fence: Fence, provider: string)
    requires fence.Valid() && fence.outage.None?
    modifies fence
    ensures fence.Valid() && fence.outage.Some? && fence.outage.value.revision == 1
    ensures fence.losses == old(fence.losses) + 2
  {
    fence.BeginOutage(provider, [], [], true, [], None);
    var snapshot := fence.outage.value;
    fence.BeginOutage(provider, [], [], true, [], None);
    fence.Reinstate(snapshot);
  }

  // ---- Records and files ----

  /** A consumer is filed once, or again after it was forgotten. */
  ghost predicate WellFiled(budgets: seq<Budget>, forgotten: bool) {
    |budgets| >= 1 && (|budgets| > 1 ==> forgotten)
  }

  ghost predicate KeepsFile(a: map<(nat, string), seq<Budget>>, b: map<(nat, string), seq<Budget>>) {
    forall k :: k in a ==> k in b && a[k] <= b[k]
  }

  ghost function Filed(id: nat, budgets: map<string, Budget>): (r: map<(nat, string), seq<Budget>>)
    ensures forall c :: (id, c) in r <==> c in budgets
    ensures forall k :: k in r ==> k.0 == id && k.1 in budgets && r[k] == [budgets[k.1]]
  {
    map k: (nat, string) | k in (set c | c in budgets :: (id, c)) :: [budgets[k.1]]
  }

  ghost function FileWith(captures: map<(nat, string), seq<Budget>>, o: Outage): map<(nat, string), seq<Budget>> {
    captures + Filed(o.id, o.budgets)
  }

  ghost function FiledOnce(captures: map<(nat, string), seq<Budget>>, k: (nat, string), budget: Budget)
    : map<(nat, string), seq<Budget>>
  {
    captures[k := (if k in captures then captures[k] else []) + [budget]]
  }

  lemma FileFresh(captures: map<(nat, string), seq<Budget>>, forgotten: set<(nat, string)>, o: Outage)
    requires forall k :: k in captures ==> k.0 < o.id && WellFiled(captures[k], k in forgotten)
    requires forall c :: c in o.consumers <==> c in o.budgets
    ensures Captured(o, FileWith(captures, o), forgotten) && KeepsFile(captures, FileWith(captures, o))
    ensures forall k :: k in FileWith(captures, o) ==>
      k.0 < o.id + 1 && WellFiled(FileWith(captures, o)[k], k in forgotten)
  {
  }

  lemma FileOne(captures: map<(nat, string), seq<Budget>>, forgotten: set<(nat, string)>, o: Outage, key: string,
                budget: Budget, preexisting: set<string>)
    requires Captured(o, captures, forgotten) && key !in o.consumers
    requires forall k :: k in captures ==> WellFiled(captures[k], k in forgotten)
    ensures KeepsFile(captures, FiledOnce(captures, (o.id, key), budget))
    ensures forall k :: k in FiledOnce(captures, (o.id, key), budget) <==> k in captures || k == (o.id, key)
    ensures forall k :: k in FiledOnce(captures, (o.id, key), budget) ==>
      WellFiled(FiledOnce(captures, (o.id, key), budget)[k], k in forgotten)
    ensures var r := o.(consumers := o.consumers + [key], budgets := o.budgets[key := budget],
                        preexisting := preexisting);
      Captured(r, FiledOnce(captures, (o.id, key), budget), forgotten) && Continues(o, r)
  {
  }

  lemma StillRightly(admissions: seq<Admission>, a: map<(nat, string), seq<Budget>>, b: map<(nat, string), seq<Budget>>)
    requires (forall x :: x in admissions ==> Rightly(x, a)) && KeepsFile(a, b)
    ensures forall x :: x in admissions ==> Rightly(x, b)
  {
    forall x | x in admissions ensures Rightly(x, b) {
      assert Rightly(x, a);
      var k :| 0 <= k < |a[(x.outage, x.key)]| && a[(x.outage, x.key)][k] == x.budget;
      assert b[(x.outage, x.key)][k] == x.budget;
    }
  }

  lemma SameRecord(o: Outage, revision: nat, provider: string, dropped: seq<string>,
                   captures: map<(nat, string), seq<Budget>>, forgotten: set<(nat, string)>)
    requires Captured(o, captures, forgotten) && o.dropped <= dropped
    ensures var r := o.(revision := revision, provider := provider, dropped := dropped, allowed := {});
      Captured(r, captures, forgotten) && Continues(o, r)
  {
  }

  lemma Forgets(captures: map<(nat, string), seq<Budget>>, forgotten: set<(nat, string)>, live: Outage,
                snapshot: Outage,
                lost: set<(nat, string)>)
    requires Captured(live, captures, forgotten) && Continues(snapshot, live) && Recorded(snapshot)
    requires forall k :: k in captures ==> WellFiled(captures[k], k in forgotten)
    requires lost == set c | c in live.budgets && c !in snapshot.budgets :: (snapshot.id, c)
    ensures Captured(snapshot.(allowed := {}), captures, forgotten + lost)
    ensures forall k :: k in captures ==> WellFiled(captures[k], k in forgotten + lost)
  {
  }

  lemma KeepsReflexive(a: map<(nat, string), seq<Budget>>)
    ensures KeepsFile(a, a)
  {
  }

  lemma KeepsTransitive(a: map<(nat, string), seq<Budget>>, b: map<(nat, string), seq<Budget>>,
                        c: map<(nat, string), seq<Budget>>)
    requires KeepsFile(a, b) && KeepsFile(b, c)
    ensures KeepsFile(a, c)
  {
  }

  lemma ContinuesReflexive(a: Outage)
    ensures Continues(a, a)
  {
  }

  lemma ContinuesTransitive(a: Outage, b: Outage, c: Outage)
    requires Continues(a, b) && Continues(b, c)
    ensures Continues(a, c)
  {
  }

  /** The names that are not known yet. */
  function Unknown(names: seq<string>, known: seq<string>): (r: seq<string>)
    ensures forall c :: c in r <==> c in names && c !in known
  {
    if names == [] then [] else (if names[0] in known then [] else [names[0]]) + Unknown(names[1..], known)
  }

  /** The same outage, later: nothing captured is lost or changed. */
  ghost predicate Continues(a: Outage, b: Outage) {
    && b.id == a.id && b.foreground == a.foreground && b.servicesOnly == a.servicesOnly
    && a.consumers <= b.consumers && a.dropped <= b.dropped
    && (forall c :: c in a.budgets ==> c in b.budgets && b.budgets[c] == a.budgets[c])
  }

  /** The same outage, so many losses later. */
  ghost predicate Later(a: Outage, b: Outage, lost: nat) {
    Continues(a, b) && b.revision == a.revision + lost
  }

  function BaselineIn(o: Outage, key: string): Budget {
    if key in o.budgets then o.budgets[key] else Budget([], None)
  }

  /** Was this consumer quarantined no earlier than the cutoff? */
  ghost predicate Late(key: string, ordered: seq<string>, cutoff: nat, quarantined: set<string>,
                       times: map<string, nat>) {
    key in ordered && key in quarantined && key in times && times[key] >= cutoff
  }

  /** Exactly the late quarantines are lifted. */
  ghost predicate Forgiven(ordered: seq<string>, cutoff: nat, before: set<string>, times: map<string, nat>,
                           after: set<string>, left: map<string, nat>) {
    && (forall k :: k in after <==> k in before && !Late(k, ordered, cutoff, before, times))
    && (forall k :: k in left <==> k in times && !Late(k, ordered, cutoff, before, times))
    && (forall k :: k in left ==> left[k] == times[k])
  }

  /** There is one budget for each consumer. */
  ghost predicate Recorded(o: Outage) {
    forall c :: c in o.consumers <==> c in o.budgets
  }

  /** The captured budgets of a record are those on file for it; what else is on file was forgotten. */
  ghost predicate Captured(o: Outage, captures: map<(nat, string), seq<Budget>>, forgotten: set<(nat, string)>) {
    && Recorded(o)
    && (forall c :: c in o.budgets ==> (o.id, c) in captures && LastOf(captures[(o.id, c)]) == Some(o.budgets[c]))
    && (forall c :: (o.id, c) in captures && c !in o.budgets ==> (o.id, c) in forgotten)
  }

  function LastOf(budgets: seq<Budget>): Option<Budget> {
    if budgets == [] then None else Some(budgets[|budgets| - 1])
  }

  /** A component was let through with a budget the outage had captured. */
  ghost predicate Rightly(a: Admission, captures: map<(nat, string), seq<Budget>>) {
    (a.outage, a.key) in captures && a.budget in captures[(a.outage, a.key)]
  }

  /** The delay before the next start after `n` failures. */
  function RestartDelay(n: nat): nat
    requires n >= 1
  {
    Min(30_000, 250 * Pow2(n - 1))
  }

  /** A quarter of a second at first, then twice as long each time, but half a minute at most. */
  lemma {:induction false} DelayDoubles(n: nat)
    requires n >= 1
    ensures RestartDelay(1) == 250
    ensures RestartDelay(n + 1) == (if 2 * RestartDelay(n) < 30_000 then 2 * RestartDelay(n) else 30_000)
    ensures n >= 8 ==> RestartDelay(n) == 30_000
  {
    assert Pow2(n) == 2 * Pow2(n - 1) && Pow2(0) == 1;
    if n > 8 {
      DelayDoubles(n - 1);
    }
  }
}
