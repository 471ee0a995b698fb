/**
 * Removing an algorithm together with the instances built on it. A spawn ties an instance to an
 * algorithm it uses; the worklist of spawns is spliced into while it is being walked.
 */
module Registry {

  // A spawn on some algorithm's list of users, held by an instance
  datatype Spawn = Spawn(id: nat, inst: nat)

  // dead: CRYPTO_ALG_DEAD instances. users: cra_users of each instance. detached: spawns whose
  // alg was cleared. removed: the list of algorithms to be destroyed. secondary: the worklist.
  datatype State = State(dead: set<nat>, users: map<nat, seq<Spawn>>, detached: set<Spawn>,
                         removed: seq<nat>, secondary: seq<Spawn>)

  // Instances that are hashed and whose template gives a reference; the others are marked dead
  // but not removed.
  type Removable = set<nat>

  function Users(s: State, i: nat): seq<Spawn> { if i in s.users then s.users[i] else [] }

  // crypto_remove_spawn, for a spawn that was taken off its list
  function RemoveSpawn(s: State, p: Spawn, able: Removable): State {
    var s1 := s.(detached := s.detached + {p});
    if p.inst in s.dead then s1
    else if p.inst !in able then s1.(dead := s.dead + {p.inst})
    else s1.(dead := s.dead + {p.inst}, removed := s.removed + [p.inst],
             secondary := Users(s, p.inst) + s.secondary, users := s.users[p.inst := []])
  }

  // Nothing is destroyed twice.
  predicate Once(s: State) {
    (forall i, j :: 0 <= i < j < |s.removed| ==> s.removed[i] != s.removed[j]) && forall i :: i in s.removed ==> i in s.dead
  }

  lemma OnceKept(s: State, p: Spawn, able: Removable)
    ensures Once(s) ==> Once(RemoveSpawn(s, p, able))
  {
  }

  // ---- what should be removed ------------------------------------------------------------------

  // An instance can be reached from the algorithm's spawns through instances that are alive and
  // removable.
  ghost predicate Chain(s: State, roots: seq<Spawn>, able: Removable, path: seq<nat>)
    decreases |path|
  {
    path != [] &&
    if |path| == 1 then exists p :: p in roots && p.inst == path[0]
    else
      var before := path[|path| - 2];
      Chain(s, roots, able, path[..|path| - 1]) && before in able && before !in s.dead &&
      exists p :: p in Users(s, before) && p.inst == path[|path| - 1]
  }

  ghost predicate Reachable(s: State, roots: seq<Spawn>, able: Removable, i: nat) {
    exists path :: Chain(s, roots, able, path) && path[|path| - 1] == i
  }

  lemma ReachRoot(s: State, roots: seq<Spawn>, able: Removable, p: Spawn)
    requires p in roots
    ensures Reachable(s, roots, able, p.inst)
  {
    assert Chain(s, roots, able, [p.inst]);
  }

  lemma ReachNext(s: State, roots: seq<Spawn>, able: Removable, i: nat, p: Spawn)
    requires Reachable(s, roots, able, i) && i in able && i !in s.dead && p in Users(s, i)
    ensures Reachable(s, roots, able, p.inst)
  {
    var path :| Chain(s, roots, able, path) && path[|path| - 1] == i;
    assert (path + [p.inst])[..|path|] == path;
    assert Chain(s, roots, able, path + [p.inst]);
  }

  // A spawn was dealt with: it is detached and its instance is dead.
  predicate Handled(s: State, p: Spawn) { p in s.detached && p.inst in s.dead }

  // s0: before. todo: the spawns still to come on the list being walked first.
  ghost predicate Progress(s0: State, s: State, roots: seq<Spawn>, todo: set<Spawn>, able: Removable) {
    s0.dead <= s.dead && s0.detached <= s.detached &&
    (forall i :: i in s.dead && i !in s0.dead ==> Reachable(s0, roots, able, i)) &&
    (forall p :: p in s.secondary ==> Reachable(s0, roots, able, p.inst)) &&
    (forall p :: p in roots ==> p in todo || Handled(s, p)) &&
    (forall i, p :: i in s.dead && i !in s0.dead && i in able && p in Users(s0, i) ==> p in s.secondary || Handled(s, p)) &&
    (forall i :: i !in s.dead ==> Users(s, i) == Users(s0, i)) &&
    (forall i :: i in s.removed <==> i in s0.removed || (i in s.dead && i !in s0.dead && i in able))
  }

  lemma StartProgress(s: State, roots: seq<Spawn>, able: Removable)
    requires s.secondary == []
    ensures Progress(s, s, roots, (set p | p in roots), able)
  {
  }

  // One spawn more is dealt with, whether it comes from the first list or from the worklist.
  lemma RemoveSpawnProgress(s0: State, s: State, s1: State, roots: seq<Spawn>, todo: set<Spawn>, able: Removable, p: Spawn)
    requires Progress(s0, s, roots, todo, able) && Reachable(s0, roots, able, p.inst)
    requires s1 == s.(secondary := s1.secondary) && forall x :: x in s.secondary ==> x in s1.secondary || x == p
    requires forall x :: x in s1.secondary ==> x in s.secondary
    ensures Progress(s0, RemoveSpawn(s1, p, able), roots, todo - {p}, able)
  {
    hide Reachable;
    var s' := RemoveSpawn(s1, p, able);
    if p.inst !in s.dead && p.inst in able {
      forall x | x in Users(s0, p.inst) ensures Reachable(s0, roots, able, x.inst) {
        ReachNext(s0, roots, able, p.inst, x);
      }
    }
  }

  // When nothing is left to do, everything reachable is dead.
  lemma {:induction false} AllReached(s0: State, s: State, roots: seq<Spawn>, able: Removable, path: seq<nat>)
    requires Progress(s0, s, roots, {}, able) && s.secondary == [] && Chain(s0, roots, able, path)
    ensures path[|path| - 1] in s.dead
    decreases |path|
  {
    hide Reachable;
    if |path| > 1 {
      var before := path[|path| - 2];
      AllReached(s0, s, roots, able, path[..|path| - 1]);
      var p :| p in Users(s0, before) && p.inst == path[|path| - 1];
      assert Handled(s, p);
    }
  }

  // What crypto_remove_spawns achieves
  ghost predicate Removed(s0: State, s: State, roots: seq<Spawn>, able: Removable) {
    // exactly the reachable instances become dead,
    s.dead == s0.dead + (set i | i in s.dead && Reachable(s0, roots, able, i)) &&
    (forall i :: Reachable(s0, roots, able, i) ==> i in s.dead) &&
    // those that can be removed are on the list to be destroyed,
    (forall i :: i in s.removed <==> i in s0.removed || (i !in s0.dead && i in able && Reachable(s0, roots, able, i))) &&
    // and no spawn on the algorithm or on any of them is attached any more.
    (forall p :: p in roots ==> p in s.detached) &&
    (forall i, p :: i in able && i !in s0.dead && Reachable(s0, roots, able, i) && p in Users(s0, i) ==> p in s.detached) &&
    s.secondary == []
  }

  lemma DoneMeansRemoved(s0: State, s: State, roots: seq<Spawn>, able: Removable)
    requires Progress(s0, s, roots, {}, able) && s.secondary == []
    ensures Removed(s0, s, roots, able)
  {
    hide Reachable;
    forall i | Reachable(s0, roots, able, i) ensures i in s.dead { ReachedDead(s0, s, roots, able, i); }
    var reached := set i | i in s.dead && Reachable(s0, roots, able, i);
    assert forall i :: i in s.dead ==> i in s0.dead || i in reached;
    assert s.dead == s0.dead + reached;
    forall i, p | i in able && i !in s0.dead && Reachable(s0, roots, able, i) && p in Users(s0, i) ensures p in s.detached {
      assert i in s.dead;
      assert Handled(s, p);
    }
    assert forall p :: p in roots ==> Handled(s, p);
  }

  lemma ReachedDead(s0: State, s: State, roots: seq<Spawn>, able: Removable, i: nat)
    requires Progress(s0, s, roots, {}, able) && s.secondary == [] && Reachable(s0, roots, able, i)
    ensures i in s.dead
  {
    var path :| Chain(s0, roots, able, path) && path[|path| - 1] == i;
    AllReached(s0, s, roots, able, path);
  }

  lemma WithoutEntry(s: seq<Spawn>, k: nat)
    requires k < |s|
    ensures forall x :: x in s ==> x in s[..k] + s[k + 1..] || x == s[k]
    ensures forall x :: x in s[..k] + s[k + 1..] ==> x in s
  {
  }

  class AlgorithmList {
    var dead: set<nat>
    var users: map<nat, seq<Spawn>>
    var detached: set<Spawn>
    var removed: seq<nat>
    var secondary: seq<Spawn>
    const able: Removable

    ghost function View(): State
      reads this
    {
      State(dead, users, detached, removed, secondary)
    }

    // crypto_remove_spawn on the worklist entry at k; the users of a removed instance are spliced
    // in at the head of the worklist.
    method RemoveAt(k: nat)
      requires k < |secondary|
      modifies this
      ensures View() == RemoveSpawn(old(View()).(secondary := old(secondary[..k] + secondary[k + 1..])), old(secondary[k]), able)
    {
      var p := secondary[k];
      secondary := secondary[..k] + secondary[k + 1..];
      Remove(p);
    }

    method Remove(p: Spawn)
      modifies this
      ensures View() == RemoveSpawn(old(View()), p, able)
    {
      detached := detached + {p};
      if p.inst in dead { return; }
      dead := dead + {p.inst};
      if p.inst !in able { return; }
      removed := removed + [p.inst];
      var its := if p.inst in users then users[p.inst] else [];
      secondary := its + secondary;
      users := users[p.inst := []];
    }

    // crypto_remove_spawns for an algorithm that is dead itself, with the spawns on it
    method RemoveSpawns(roots: seq<Spawn>)
      requires secondary == []
      modifies this
      ensures Removed(old(View()), View(), roots, able)
      ensures old(Once(View())) ==> Once(View())
    {
      hide Progress, Removed, Reachable, RemoveSpawn, Once;
      ghost var s0 := View();
      ghost var todo := set p | p in roots;
      StartProgress(s0, roots, able);
      var i := 0;
      while i < |roots|
        invariant i <= |roots| && Progress(s0, View(), roots, todo, able) && (Once(s0) ==> Once(View()))
        invariant forall p :: p in todo ==> p in roots[i..]
      {
        ReachRoot(s0, roots, able, roots[i]);
        RemoveSpawnProgress(s0, View(), View(), roots, todo, able, roots[i]);
        OnceKept(View(), roots[i], able);
        Remove(roots[i]);
        todo := todo - {roots[i]};
        i := i + 1;
      }
      assert todo == {};
      while secondary != []
        invariant Progress(s0, View(), roots, {}, able) && (Once(s0) ==> Once(View()))
        decreases able - dead, |secondary|
      {
        Pass(s0, roots);
      }
      DoneMeansRemoved(s0, View(), roots, able);
    }

    // One list_for_each_entry_safe over the worklist: the entries of the pass are the last `left`
    // ones, whatever is spliced in before them.
    method Pass(ghost s0: State, ghost roots: seq<Spawn>)
      requires Progress(s0, View(), roots, {}, able) && (Once(s0) ==> Once(View()))
      modifies this
      ensures Progress(s0, View(), roots, {}, able) && (Once(s0) ==> Once(View()))
      ensures able - dead <= able - old(dead) && (able - dead == able - old(dead) ==> secondary == [])
    {
      hide Progress, Reachable, RemoveSpawn, Once;
      var left := |secondary|;
      ghost var living := able - dead;
      while left > 0
        invariant left <= |secondary| && Progress(s0, View(), roots, {}, able) && (Once(s0) ==> Once(View()))
        invariant able - dead <= living && (able - dead == living ==> |secondary| == left)
      {
        ghost var s := View();
        var k := |secondary| - left;
        ghost var s1 := s.(secondary := secondary[..k] + secondary[k + 1..]);
        WithoutEntry(secondary, k);
        Pending(s0, s, roots, able, k);
        RemoveSpawnProgress(s0, s, s1, roots, {}, able, secondary[k]);
        NothingLess(secondary[k]);
        RemoveSpawnLeft(s1, secondary[k], able);
        SameOnce(s, s1);
        OnceKept(s1, secondary[k], able);
        RemoveAt(k);
        left := left - 1;
      }
    }
  }

  lemma NothingLess(p: Spawn)
    ensures {} - {p} == {}
  {
  }

  lemma SameOnce(s: State, s1: State)
    requires s1 == s.(secondary := s1.secondary)
    ensures Once(s1) <==> Once(s)
  {
  }

  lemma Pending(s0: State, s: State, roots: seq<Spawn>, able: Removable, k: nat)
    requires Progress(s0, s, roots, {}, able) && k < |s.secondary|
    ensures Reachable(s0, roots, able, s.secondary[k].inst)
  {
  }

  // Entries are spliced in only when a removable instance dies.
  lemma RemoveSpawnLeft(s: State, p: Spawn, able: Removable)
    ensures var s' := RemoveSpawn(s, p, able);
            able - s'.dead <= able - s.dead && |s'.secondary| >= |s.secondary| &&
            (able - s'.dead == able - s.dead ==> s'.secondary == s.secondary)
  {
    if p.inst in able && p.inst !in s.dead { assert p.inst in able - s.dead; }
  }
}
