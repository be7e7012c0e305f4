/** The part of the release controller's sync that keeps the status and the revision history. */
module ReleaseController {
  import opened Prelude
  import opened Release

  datatype Revision = Revision(owned: bool, number: int, data: string)

  type Store = map<string, Revision>

  function Owned(revisions: Store): set<string> {
    set n | n in revisions && revisions[n].owned
  }

  // ------------------------------------------------------------------ what the history promises

  /** The one revision of the current generation, holding the snapshot. */
  ghost predicate IsCurrent(revisions: Store, generation: int, snapshot: string, n: string) {
    && n in revisions && revisions[n] == Revision(true, generation, snapshot)
    && forall m :: m in revisions && revisions[m].owned && revisions[m].number == generation ==> m == n
  }

  ghost predicate UnownedKept(before: Store, after: Store) {
    && (forall n :: n in before && !before[n].owned ==> n in after && after[n] == before[n])
    && (forall n :: n in after && !after[n].owned ==> n in before && before[n] == after[n])
  }

  /** One revision at the current generation, none above, and no more than the limit. */
  ghost predicate Settled(revisions: Store, generation: int, snapshot: string, limit: nat) {
    && (exists n :: IsCurrent(revisions, generation, snapshot, n))
    && (forall n :: n in revisions && revisions[n].owned ==> revisions[n].number <= generation)
    && |Owned(revisions)| <= limit
  }

  /** Nothing but own revisions went, and of the older ones the oldest went first. */
  ghost predicate OldestFirst(before: Store, after: Store, generation: int) {
    && UnownedKept(before, after)
    && (forall n :: n in after ==> n in before && after[n] == before[n])
    && (forall n, m :: n in after && after[n].owned && m in before && m !in after && before[m].owned && before[m].number < generation ==>
         after[n].number >= before[m].number)
  }

  // ------------------------------------------------------------------ sorting by revision, the newest first

  predicate Descending(xs: seq<string>, revisions: Store) {
    && (forall x :: x in xs ==> x in revisions)
    && forall i, j :: 0 <= i < j < |xs| ==> revisions[xs[i]].number >= revisions[xs[j]].number
  }

  function Insert(x: string, xs: seq<string>, revisions: Store): (r: seq<string>)
    requires x in revisions && forall y :: y in xs ==> y in revisions
    ensures |r| == |xs| + 1 && multiset(r) == multiset(xs) + multiset{x}
    ensures forall y :: y in r <==> y == x || y in xs
  {
    if xs == [] then [x]
    else if revisions[x].number >= revisions[xs[0]].number then
      assert multiset([x] + xs) == multiset{x} + multiset(xs);
      [x] + xs
    else
      assert xs == [xs[0]] + xs[1..];
      [xs[0]] + Insert(x, xs[1..], revisions)
  }

  lemma ConsDescends(x: string, rest: seq<string>, revisions: Store)
    requires x in revisions && Descending(rest, revisions)
    requires forall y :: y in rest ==> revisions[y].number <= revisions[x].number
    ensures Descending([x] + rest, revisions)
  {
  }

  lemma TailDescends(xs: seq<string>, revisions: Store)
    requires xs != [] && Descending(xs, revisions)
    ensures xs[0] in revisions && Descending(xs[1..], revisions)
    ensures forall y :: y in xs ==> y in revisions && revisions[y].number <= revisions[xs[0]].number
  {
  }

  lemma {:induction false} InsertDescends(x: string, xs: seq<string>, revisions: Store)
    requires x in revisions && Descending(xs, revisions) && forall y :: y in xs ==> y in revisions
    ensures Descending(Insert(x, xs, revisions), revisions)
  {
    hide Descending;
    if xs == [] {
      ConsDescends(x, [], revisions);
      assert [x] + [] == [x];
    } else {
      TailDescends(xs, revisions);
      if revisions[x].number < revisions[xs[0]].number {
        InsertDescends(x, xs[1..], revisions);
        ConsDescends(xs[0], Insert(x, xs[1..], revisions), revisions);
      } else {
        ConsDescends(x, xs, revisions);
      }
    }
  }

  function SortByRevision(xs: seq<string>, revisions: Store): (r: seq<string>)
    requires forall x :: x in xs ==> x in revisions
    ensures |r| == |xs| && multiset(r) == multiset(xs) && forall y :: y in r <==> y in xs
  {
    if xs == [] then []
    else
      assert xs == [xs[0]] + xs[1..];
      Insert(xs[0], SortByRevision(xs[1..], revisions), revisions)
  }

  lemma {:induction false} SortDescends(xs: seq<string>, revisions: Store)
    requires forall x :: x in xs ==> x in revisions
    ensures Descending(SortByRevision(xs, revisions), revisions)
  {
    if xs != [] {
      SortDescends(xs[1..], revisions);
      InsertDescends(xs[0], SortByRevision(xs[1..], revisions), revisions);
    }
  }

  ghost predicate NoRepeats(xs: seq<string>) {
    forall i, j :: 0 <= i < j < |xs| ==> xs[i] != xs[j]
  }

  function Elements(xs: seq<string>): set<string> {
    set x | x in xs
  }

  lemma {:induction false} SizeOfElements(xs: seq<string>)
    ensures |Elements(xs)| <= |xs| && (NoRepeats(xs) ==> |Elements(xs)| == |xs|)
  {
    if xs != [] {
      SizeOfElements(xs[1..]);
      assert Elements(xs) == Elements(xs[1..]) + {xs[0]};
      if NoRepeats(xs) {
        assert xs[0] !in xs[1..];
        assert NoRepeats(xs[1..]);
      }
    }
  }

  lemma {:induction false} NoRepeatsCounts(xs: seq<string>)
    ensures NoRepeats(xs) <==> forall x :: multiset(xs)[x] <= 1
  {
    if i, j :| 0 <= i < j < |xs| && xs[i] == xs[j] {
      assert xs == xs[..j] + xs[j..];
      assert xs[..j][i] in xs[..j] && xs[j..][0] in xs[j..];
      assert multiset(xs)[xs[i]] == multiset(xs[..j])[xs[i]] + multiset(xs[j..])[xs[i]];
    } else if xs != [] {
      var rest := xs[1..];
      assert xs == [xs[0]] + rest;
      NoRepeatsCounts(rest);
      assert xs[0] !in rest;
    }
  }

  lemma SortKeeps(xs: seq<string>, revisions: Store)
    requires NoRepeats(xs) && forall x :: x in xs ==> x in revisions
    ensures var r := SortByRevision(xs, revisions);
            |r| == |xs| && NoRepeats(r) && Descending(r, revisions) && forall x :: x in r <==> x in xs
  {
    SortDescends(xs, revisions);
    var r := SortByRevision(xs, revisions);
    NoRepeatsCounts(xs);
    NoRepeatsCounts(r);
    assert |multiset(r)| == |r| && |multiset(xs)| == |xs|;
  }

  // ------------------------------------------------------------------ the controller

  /** At the current generation, with the snapshot. */
  predicate Matches(r: Revision, spec: Spec, snapshot: string) {
    r == Revision(true, spec.generation, snapshot)
  }

  /** Of the revisions seen, those above the generation are gone, and at most one is left at it. */
  ghost predicate Thinned(after: Store, seen: set<string>, spec: Spec, snapshot: string) {
    && (forall n :: n in after && n in seen && after[n].owned ==>
         after[n].number < spec.generation || Matches(after[n], spec, snapshot))
    && forall n, m ::
         (n in after && m in after && n in seen && m in seen
          && Matches(after[n], spec, snapshot) && Matches(after[m], spec, snapshot)) ==> n == m
  }

  /** What one pass over the revisions leaves. */
  ghost predicate Sifted(before: Store, after: Store, seen: set<string>, spec: Spec, snapshot: string, found: bool, current: seq<string>) {
    && (forall n :: n in after ==> n in before && after[n] == before[n])
    && (forall n :: n in before && (n !in seen || !before[n].owned || before[n].number < spec.generation) ==> n in after)
    && Thinned(after, seen, spec, snapshot)
    && (found ==> exists n :: n in after && n in seen && Matches(after[n], spec, snapshot))
    && (!found ==> forall n :: n in before && n in seen ==> !Matches(before[n], spec, snapshot))
    && NoRepeats(current) && (forall n :: n in current <==> n in after && n in seen && after[n].owned)
  }

  lemma SiftStarts(before: Store, spec: Spec, snapshot: string)
    ensures Sifted(before, before, Elements([]), spec, snapshot, false, []) && UnownedKept(before, before)
  {
  }

  lemma DropKeepsUnowned(before: Store, after: Store, n: string)
    requires UnownedKept(before, after) && n in after && after[n].owned && n in before && before[n].owned
    ensures UnownedKept(before, after - {n})
  {
  }

  lemma SiftKeeps(before: Store, after: Store, seen: set<string>, spec: Spec, snapshot: string, found: bool, current: seq<string>, n: string)
    requires Sifted(before, after, seen, spec, snapshot, found, current) && n in before && n !in seen
    ensures n in after && after[n] == before[n]
    ensures !before[n].owned ==> Sifted(before, after, seen + {n}, spec, snapshot, found, current)
    ensures before[n].owned && before[n].number < spec.generation ==>
              Sifted(before, after, seen + {n}, spec, snapshot, found, current + [n])
  {
  }

  lemma SiftFinds(before: Store, after: Store, seen: set<string>, spec: Spec, snapshot: string, current: seq<string>, n: string)
    requires Sifted(before, after, seen, spec, snapshot, false, current) && n in before && n !in seen
    requires Matches(before[n], spec, snapshot)
    ensures Sifted(before, after, seen + {n}, spec, snapshot, true, current + [n])
  {
  }

  lemma SiftDrops(before: Store, after: Store, seen: set<string>, spec: Spec, snapshot: string, found: bool, current: seq<string>, n: string)
    requires Sifted(before, after, seen, spec, snapshot, found, current) && n in before && n !in seen
    requires before[n].owned && before[n].number >= spec.generation && (Matches(before[n], spec, snapshot) ==> found)
    ensures Sifted(before, after - {n}, seen + {n}, spec, snapshot, found, current)
  {
  }

  lemma NothingDropped(before: Store)
    ensures before - Elements([]) == before
  {
  }

  lemma OneMoreDropped(before: Store, sorted: seq<string>, limit: nat, i: nat)
    requires limit <= i < |sorted| && NoRepeats(sorted) && forall x :: x in sorted ==> x in before
    ensures before - Elements(sorted[limit..i]) - {sorted[i]} == before - Elements(sorted[limit..i + 1])
    ensures sorted[i] in before && sorted[i] in before - Elements(sorted[limit..i])
  {
    assert Elements(sorted[limit..i + 1]) == Elements(sorted[limit..i]) + {sorted[i]};
    assert sorted[i] in sorted && sorted[i] !in sorted[limit..i];
  }

  /** A settled history gives no reason to delete anything. */
  lemma DropUnsettles(before: Store, after: Store, seen: set<string>, spec: Spec, snapshot: string, found: bool, current: seq<string>,
                      n: string, limit: nat)
    requires Sifted(before, after, seen, spec, snapshot, found, current) && n in before && n !in seen
    requires before[n].owned && before[n].number >= spec.generation && (Matches(before[n], spec, snapshot) ==> found)
    ensures !Settled(before, spec.generation, snapshot, limit)
  {
    if found {
      var m :| m in after && m in seen && Matches(after[m], spec, snapshot);
      assert m != n && before[m] == after[m];
    }
  }

  lemma SettledIsFound(before: Store, after: Store, spec: Spec, snapshot: string, found: bool, current: seq<string>, limit: nat)
    requires Sifted(before, after, before.Keys, spec, snapshot, found, current)
    ensures Settled(before, spec.generation, snapshot, limit) ==> found && |Owned(before)| <= limit
  {
  }

  lemma UnownedTwice(a: Store, b: Store, c: Store)
    requires UnownedKept(a, b) && UnownedKept(b, c)
    ensures UnownedKept(a, c)
  {
  }

  lemma CreateKeepsUnowned(before: Store, after: Store, name: string, r: Revision)
    requires UnownedKept(before, after) && name !in before && r.owned
    ensures UnownedKept(before, after[name := r])
  {
  }

  class Controller {
    var spec: Spec
    var snapshot: string
    var limit: nat
    var status: Status
    var revisions: Store

    /** A call to the API server, which may fail. */
    method Delete(name: string) returns (ok: bool)
      modifies this`revisions
      ensures revisions == if ok then old(revisions) - {name} else old(revisions)
    {
      ok := *;
      if ok {
        revisions := revisions - {name};
      }
    }

    /** Goes through the revisions the lister knows, in its order. */
    method SiftRevisions(order: seq<string>) returns (ok: bool, found: bool, current: seq<string>)
      requires NoRepeats(order) && forall n :: n in order <==> n in revisions
      modifies this`revisions
      ensures UnownedKept(old(revisions), revisions)
      ensures ok ==> Sifted(old(revisions), revisions, old(revisions).Keys, spec, snapshot, found, current)
      ensures Settled(old(revisions), spec.generation, snapshot, limit) ==> ok && found && revisions == old(revisions)
    {
      hide Sifted, UnownedKept, Settled;
      found, current := false, [];
      ghost var before := revisions;
      SiftStarts(before, spec, snapshot);
      for i := 0 to |order|
        invariant Sifted(before, revisions, Elements(order[..i]), spec, snapshot, found, current)
        invariant UnownedKept(before, revisions)
        invariant Settled(before, spec.generation, snapshot, limit) ==> revisions == before
      {
        var n := order[i];
        ghost var seen := Elements(order[..i]);
        assert Elements(order[..i + 1]) == seen + {n} && n !in seen;
        SiftKeeps(before, revisions, seen, spec, snapshot, found, current, n);
        var r := revisions[n];
        if !r.owned {
          continue;
        }
        if r.number < spec.generation {
          current := current + [n];
          continue;
        }
        if r.number == spec.generation && r.data == snapshot && !found {
          SiftFinds(before, revisions, seen, spec, snapshot, current, n);
          current := current + [n];
          found := true;
          continue;
        }
        SiftDrops(before, revisions, seen, spec, snapshot, found, current, n);
        DropKeepsUnowned(before, revisions, n);
        DropUnsettles(before, revisions, seen, spec, snapshot, found, current, n, limit);
        var deleted := Delete(n);
        if !deleted {
          return false, found, current;
        }
      }
      assert order[..|order|] == order;
      assert Elements(order) == before.Keys;
      SettledIsFound(before, revisions, spec, snapshot, found, current, limit);
      return true, found, current;
    }

    /** Deletes the oldest revisions beyond the limit. */
    method TrimRevisions(current: seq<string>) returns (ok: bool)
      requires NoRepeats(current) && forall n :: n in current ==> n in revisions && revisions[n].owned
      modifies this`revisions
      ensures UnownedKept(old(revisions), revisions)
      ensures |current| <= limit ==> ok && revisions == old(revisions)
      ensures ok && |current| > limit ==> revisions == old(revisions) - Elements(SortByRevision(current, old(revisions))[limit..])
    {
      hide SortByRevision, UnownedKept, Elements, NoRepeats, Descending;
      ghost var before := revisions;
      NothingDropped(before);
      SiftStarts(before, spec, snapshot);
      if |current| <= limit {
        return true;
      }
      var sorted := SortByRevision(current, revisions);
      SortKeeps(current, revisions);
      assert sorted[limit..limit] == [];
      for i := limit to |sorted|
        invariant revisions == before - Elements(sorted[limit..i]) && UnownedKept(before, revisions)
      {
        OneMoreDropped(before, sorted, limit, i);
        DropKeepsUnowned(before, revisions, sorted[i]);
        var deleted := Delete(sorted[i]);
        if !deleted {
          return false;
        }
      }
      assert sorted[limit..|sorted|] == sorted[limit..];
      return true;
    }

    /** The updates of the status that each end a sync; true once none is left to make. */
    method UpdateStatus(now: int, ready: bool, deployer: DeployerPhase) returns (done: bool)
      modifies this`status
      ensures Marked(old(status)) ==> Marked(status)
      ensures done ==> status == old(status) && status.observed == spec.generation && PhaseStep(spec, status, now) == status
    {
      if status.deployer.None? {
        status := status.(deployer := Some(Waiting));
        return false;
      }
      if Marked(status) {
        StepKeepsMark(State(spec, status), SetPhase(now));
      }
      hide ReleasePhase;
      var next := PhaseStep(spec, status, now);
      if next != status {
        status := next;
        return false;
      }
      if !ready {
        return false;
      }
      next := status.(deployer := Some(deployer), observed := spec.generation);
      if next != status {
        status := next;
        return false;
      }
      return true;
    }

    /** The end of a sync: conditions are pruned, and the history is cut to the limit. */
    method PruneAndTrim(now: int, deployer: DeployerPhase, current: seq<string>) returns (ok: bool)
      requires NoRepeats(current) && forall n :: n in current ==> n in revisions && revisions[n].owned
      modifies this`revisions, this`status
      ensures Marked(old(status)) ==> Marked(status)
      ensures status == old(status).(conditions := Refresh(Prune(old(status).conditions), deployer, now))
      ensures forall c :: c in status.conditions ==> Truthful(c, deployer)
      ensures UnownedKept(old(revisions), revisions)
      ensures |current| <= limit ==> ok && revisions == old(revisions)
      ensures ok && |current| > limit ==> revisions == old(revisions) - Elements(SortByRevision(current, old(revisions))[limit..])
    {
      hide UnownedKept, SortByRevision;
      if Marked(status) {
        StepKeepsMark(State(spec, status), PruneConditions(deployer, now));
      }
      var conditions := KeepLastOfKind(status.conditions);
      status := status.(conditions := Refresh(conditions, deployer, now));
      ok := TrimRevisions(current);
    }

    /** One sync, as far as status and revisions go. Secrets and the deployment are brought up
        to date in between: ready says that nothing had to be done, deployer what was found. It
        answers whether the sync ran to its end. */
    method Sync(order: seq<string>, name: string, now: int, ready: bool, deployer: DeployerPhase) returns (ended: bool)
      requires NoRepeats(order) && (forall n :: n in order <==> n in revisions) && name !in revisions
      modifies this`revisions, this`status
      ensures UnownedKept(old(revisions), revisions)
      ensures Marked(old(status)) ==> Marked(status)
      ensures ended && 1 <= limit ==>
                && Settled(revisions, spec.generation, snapshot, limit)
                && OldestFirst(old(revisions), revisions, spec.generation)
      ensures Settled(old(revisions), spec.generation, snapshot, limit) ==> revisions == old(revisions)
      ensures ended ==> status.observed == spec.generation && status.phase == ReleasePhase(spec, old(status))
                        && status.conditions == Refresh(Prune(old(status).conditions), deployer, now)
                        && forall c :: c in status.conditions ==> Truthful(c, deployer)
    {
      hide Sifted, UnownedKept, Settled, OldestFirst, ReleasePhase, SortByRevision, Prune, Refresh, Marked, NoRepeats, Truthful;
      ghost var before := revisions;
      var ok, found, current := SiftRevisions(order);
      if !ok {
        return false;
      }
      if !found {
        CreateKeepsUnowned(before, revisions, name, Revision(true, spec.generation, snapshot));
        revisions := revisions[name := Revision(true, spec.generation, snapshot)];
        return false;
      }
      var done := UpdateStatus(now, ready, deployer);
      if !done {
        return false;
      }
      SiftedCount(before, revisions, spec, snapshot, current);
      SettledIsFound(before, revisions, spec, snapshot, found, current, limit);
      ghost var sifted := revisions;
      ended := PruneAndTrim(now, deployer, current);
      UnownedTwice(before, sifted, revisions);
      if ended && 1 <= limit {
        TrimmedIsSettled(before, sifted, revisions, spec, snapshot, current, limit);
      }
    }
  }

  /** Of the first n conditions, the index of the last one of each kind. */
  ghost predicate LastIndexes(conditions: seq<Condition>, n: nat, last: map<Kind, nat>)
    requires n <= |conditions|
  {
    && (forall k :: k in last ==> last[k] < n && conditions[last[k]].kind == k)
    && (forall j :: 0 <= j < n ==> conditions[j].kind in last && j <= last[conditions[j].kind])
  }

  lemma LastIndexesGrow(conditions: seq<Condition>, i: nat, last: map<Kind, nat>)
    requires i < |conditions| && LastIndexes(conditions, i, last)
    ensures LastIndexes(conditions, i + 1, last[conditions[i].kind := i])
  {
  }

  lemma LastIndexIsLast(conditions: seq<Condition>, i: nat, last: map<Kind, nat>)
    requires i < |conditions| && LastIndexes(conditions, |conditions|, last)
    ensures conditions[i].kind in last && (last[conditions[i].kind] == i <==> LastOfKind(conditions, i, conditions[i]))
  {
  }

  lemma PruneStep(conditions: seq<Condition>, i: nat)
    requires i < |conditions|
    ensures Prune(conditions[i..]) ==
              (if LastOfKind(conditions, i, conditions[i]) then [conditions[i]] else []) + Prune(conditions[i + 1..])
  {
    var c, rest := conditions[i], conditions[i + 1..];
    assert conditions[i..][0] == c && conditions[i..][1..] == rest;
    assert forall j :: 0 <= j < |rest| ==> rest[j] == conditions[i + 1 + j];
    if d :| d in rest && d.kind == c.kind {
      assert !LastOfKind(conditions, i, c);
    } else {
      assert forall j :: i < j < |conditions| ==> conditions[j] == rest[j - i - 1] && conditions[j] in rest;
    }
    assert [] + Prune(rest) == Prune(rest);
  }

  /** The two loops of the original: the index of the last condition of each kind, and then the
      conditions at those indexes. */
  method KeepLastOfKind(conditions: seq<Condition>) returns (r: seq<Condition>)
    ensures r == Prune(conditions)
  {
    hide Prune, LastIndexes, LastOfKind;
    var last: map<Kind, nat> := map[];
    NoIndexes(conditions);
    for i := 0 to |conditions|
      invariant LastIndexes(conditions, i, last)
    {
      LastIndexesGrow(conditions, i, last);
      last := last[conditions[i].kind := i];
    }
    r := [];
    assert conditions[0..] == conditions;
    for i := 0 to |conditions|
      invariant r + Prune(conditions[i..]) == Prune(conditions)
    {
      LastIndexIsLast(conditions, i, last);
      PruneStep(conditions, i);
      if last[conditions[i].kind] == i {
        r := r + [conditions[i]];
      }
    }
    NothingToPrune();
    assert conditions[|conditions|..] == [];
  }

  lemma NoIndexes(conditions: seq<Condition>)
    ensures LastIndexes(conditions, 0, map[])
  {
  }

  lemma NothingToPrune()
    ensures Prune([]) == []
  {
  }

  // ------------------------------------------------------------------ sifted and trimmed

  lemma SiftedCount(before: Store, after: Store, spec: Spec, snapshot: string, current: seq<string>)
    requires Sifted(before, after, before.Keys, spec, snapshot, true, current)
    ensures Elements(current) == Owned(after) && |Owned(after)| == |current| && NoRepeats(current)
    ensures forall n :: n in current ==> n in after && after[n].owned
  {
    SizeOfElements(current);
    assert Elements(current) == Owned(after);
  }

  /** The newest stay within the limit, the current one among them. */
  lemma TrimmedIsSettled(before: Store, after: Store, trimmed: Store, spec: Spec, snapshot: string, current: seq<string>, limit: nat)
    requires Sifted(before, after, before.Keys, spec, snapshot, true, current) && 1 <= limit
    requires forall n :: n in current ==> n in after
    requires trimmed == if |current| <= limit then after else after - Elements(SortByRevision(current, after)[limit..])
    ensures Settled(trimmed, spec.generation, snapshot, limit) && OldestFirst(before, trimmed, spec.generation)
  {
    hide SortByRevision, Settled, OldestFirst;
    SiftedCount(before, after, spec, snapshot, current);
    var n := SiftedCurrent(before, after, spec, snapshot, current);
    if |current| <= limit {
      FewAreSettled(before, after, spec, snapshot, current, limit, n);
    } else {
      var sorted := SortByRevision(current, after);
      SortKeeps(current, after);
      hide Sifted;
      SiftedBounds(before, after, spec, snapshot, current);
      NewestIsFirst(after, spec.generation, snapshot, sorted, n);
      KeptAreFew(after, trimmed, sorted, limit);
      CutIsSettled(before, after, trimmed, spec.generation, snapshot, sorted, limit, n);
    }
  }

  lemma SiftedCurrent(before: Store, after: Store, spec: Spec, snapshot: string, current: seq<string>) returns (n: string)
    requires Sifted(before, after, before.Keys, spec, snapshot, true, current)
    ensures IsCurrent(after, spec.generation, snapshot, n)
  {
    n :| n in after && n in before.Keys && Matches(after[n], spec, snapshot);
  }

  lemma SiftedBounds(before: Store, after: Store, spec: Spec, snapshot: string, current: seq<string>)
    requires Sifted(before, after, before.Keys, spec, snapshot, true, current)
    ensures forall n :: n in after ==> n in before && after[n] == before[n]
    ensures forall n :: n in before && (!before[n].owned || before[n].number < spec.generation) ==> n in after
    ensures forall n :: n in after && after[n].owned ==> after[n].number <= spec.generation
    ensures forall x :: x in current <==> x in Owned(after)
  {
  }

  lemma FewAreSettled(before: Store, after: Store, spec: Spec, snapshot: string, current: seq<string>, limit: nat, n: string)
    requires Sifted(before, after, before.Keys, spec, snapshot, true, current)
    requires |Owned(after)| <= limit && IsCurrent(after, spec.generation, snapshot, n)
    ensures Settled(after, spec.generation, snapshot, limit) && OldestFirst(before, after, spec.generation)
  {
    SiftedBounds(before, after, spec, snapshot, current);
  }

  lemma CutIsSettled(before: Store, after: Store, trimmed: Store, generation: int, snapshot: string, sorted: seq<string>, limit: nat, n: string)
    requires forall m :: m in after ==> m in before && after[m] == before[m]
    requires forall m :: m in before && (!before[m].owned || before[m].number < generation) ==> m in after
    requires forall m :: m in after && after[m].owned ==> after[m].number <= generation
    requires forall x :: x in sorted <==> x in Owned(after)
    requires Descending(sorted, after) && NoRepeats(sorted) && 1 <= limit <= |sorted| && sorted[0] == n
    requires IsCurrent(after, generation, snapshot, n) && trimmed == after - Elements(sorted[limit..]) && |Owned(trimmed)| <= limit
    ensures Settled(trimmed, generation, snapshot, limit) && OldestFirst(before, trimmed, generation)
  {
    assert n !in sorted[limit..];
    assert forall x :: x in sorted[limit..] ==> x in sorted && after[x].owned;
    assert IsCurrent(trimmed, generation, snapshot, n);
    forall k, m | k in trimmed && trimmed[k].owned && m in before && m !in trimmed && before[m].owned && before[m].number < generation
      ensures trimmed[k].number >= before[m].number
    {
      assert m in sorted[limit..] && k in sorted && k !in sorted[limit..];
      var i :| 0 <= i < |sorted| && sorted[i] == k;
      var j :| limit <= j < |sorted| && sorted[j] == m;
      assert forall h :: limit <= h < |sorted| ==> sorted[h] in sorted[limit..];
    }
  }

  lemma NewestIsFirst(revisions: Store, generation: int, snapshot: string, sorted: seq<string>, n: string)
    requires Descending(sorted, revisions) && NoRepeats(sorted) && IsCurrent(revisions, generation, snapshot, n)
    requires forall x :: x in sorted <==> x in Owned(revisions)
    requires forall x :: x in sorted ==> revisions[x].number <= generation
    ensures sorted != [] && sorted[0] == n && forall j :: 0 < j < |sorted| ==> sorted[j] != n
  {
    assert n in sorted;
    assert sorted[0] in sorted;
  }

  lemma KeptAreFew(after: Store, trimmed: Store, sorted: seq<string>, limit: nat)
    requires limit <= |sorted| && trimmed == after - Elements(sorted[limit..]) && forall x :: x in sorted <==> x in Owned(after)
    ensures |Owned(trimmed)| <= limit
  {
    SizeOfElements(sorted[..limit]);
    assert Owned(trimmed) <= Elements(sorted[..limit]) by {
      forall x | x in Owned(trimmed) ensures x in sorted[..limit] {
        assert x in sorted && x !in sorted[limit..];
        assert sorted == sorted[..limit] + sorted[limit..];
      }
    }
    SubsetSize(Owned(trimmed), Elements(sorted[..limit]));
  }
}
