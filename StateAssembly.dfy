/**
 * How `prepare_object_states` turns an object's abilities into its ordered state map. The
 * omnigibson and igibson `StatefulObject` classes share this logic line for line:
 *   1. list every default state with empty params, then every state each ability maps to with
 *      that ability's params;
 *   2. walk the list while it grows, appending each required dependency not yet listed;
 *   3. walk the list backwards, assigning each state into an ordered dict.
 * The ordered dict is a `StateMap`: the keys in insertion order plus the instances.
 */
module StateAssembly {
  import opened Wrappers
  import opened StateCatalogue

  /** One element of `state_types_and_params`: a state class and its constructor parameters. */
  type Entry = (StateKind, Params)

  /** The abilities dict `{ability: {param: value}}`, in its iteration order. */
  type Abilities = seq<(string, Params)>

  /** The state classes of a list of entries, position by position. */
  function Kinds(list: seq<Entry>): (ks: seq<StateKind>)
    ensures |ks| == |list|
    ensures forall p :: 0 <= p < |list| ==> ks[p] == list[p].0
  {
    seq(|list|, p requires 0 <= p < |list| => list[p].0)
  }

  /** The catalogued states not yet listed: what the dependency walk can still add. */
  ghost function Unlisted(list: seq<Entry>): set<StateKind> {
    set k | k in AllStatesList && k !in Kinds(list)
  }

  /** `[(state, params) for state in states]` */
  function WithParams(states: seq<StateKind>, params: Params): (r: seq<Entry>)
    ensures |r| == |states|
    ensures forall j :: 0 <= j < |r| ==> r[j] == (states[j], params)
  {
    seq(|states|, j requires 0 <= j < |states| => (states[j], params))
  }

  /** The entries the abilities contribute, ability by ability. */
  function AbilityEntries(abilities: Abilities): seq<Entry> {
    if abilities == [] then []
    else WithParams(StatesForAbility(abilities[0].0), abilities[0].1) + AbilityEntries(abilities[1..])
  }

  /** `state_types_and_params` before the dependency walk. */
  function Seeds(abilities: Abilities): seq<Entry> {
    WithParams(DefaultStatesList, map[]) + AbilityEntries(abilities)
  }

  lemma {:induction false} AbilityEntriesCover(abilities: Abilities, a: (string, Params), k: StateKind)
    requires a in abilities && k in StatesForAbility(a.0)
    ensures (k, a.1) in AbilityEntries(abilities)
  {
    if abilities[0] == a {
      var j :| 0 <= j < |StatesForAbility(a.0)| && StatesForAbility(a.0)[j] == k;
      assert WithParams(StatesForAbility(a.0), a.1)[j] == (k, a.1);
    } else {
      AbilityEntriesCover(abilities[1..], a, k);
    }
  }

  /** The seeds hold every default state with empty params and every ability's states with its params. */
  lemma SeedsCover(abilities: Abilities)
    ensures forall k :: k in DefaultStates() ==> (k, map[]) in Seeds(abilities)
    ensures forall a, k :: a in abilities && k in StatesForAbility(a.0) ==> (k, a.1) in Seeds(abilities)
  {
    var defaults := WithParams(DefaultStatesList, map[]);
    forall k | k in DefaultStates() ensures (k, map[]) in Seeds(abilities) {
      var j :| 0 <= j < |DefaultStatesList| && DefaultStatesList[j] == k;
      assert defaults[j] == (k, map[]);
    }
    forall a, k | a in abilities && k in StatesForAbility(a.0) ensures (k, a.1) in Seeds(abilities) {
      AbilityEntriesCover(abilities, a, k);
    }
  }

  lemma KindsAppend(list: seq<Entry>, e: Entry)
    ensures Kinds(list + [e]) == Kinds(list) + [e.0]
  {
  }

  lemma {:induction false} KindsSlice(list: seq<Entry>, a: int, b: int)
    requires 0 <= a <= b <= |list|
    ensures Kinds(list[a..b]) == Kinds(list)[a..b]
  {
  }

  /** Appends, with empty params, each of `deps` not yet listed, in order. */
  function AddMissing(list: seq<Entry>, deps: seq<StateKind>): (r: seq<Entry>)
    ensures list <= r
    ensures forall k :: k in Kinds(r) <==> k in Kinds(list) || k in deps
    ensures r == list || Unlisted(r) < Unlisted(list)
    ensures forall j :: |list| <= j < |r| ==> r[j].1 == map[] && r[j].0 in deps && r[j].0 !in Kinds(r)[..j]
    decreases |deps|
  {
    if deps == [] then list
    else if deps[0] in Kinds(list) then AddMissing(list, deps[1..])
    else
      var next := list + [(deps[0], map[])];
      KindsAppend(list, (deps[0], map[]));
      EveryKindCatalogued(deps[0]);
      assert deps[0] in Unlisted(list) && Unlisted(next) < Unlisted(list);
      var r := AddMissing(next, deps[1..]);
      assert Kinds(r)[..|list|] == Kinds(list);
      r
  }

  /** The dependency walk from position `i` on, over a list that grows as it is walked. */
  function Close(classes: StateClasses, list: seq<Entry>, i: nat): (r: seq<Entry>)
    requires i <= |list|
    ensures list <= r
    decreases Unlisted(list), |list| - i
  {
    if i == |list| then list
    else Close(classes, AddMissing(list, classes.dependencies(list[i].0)), i + 1)
  }

  /** `state_types_and_params` once the dependency walk is over. */
  function PreparedList(classes: StateClasses, abilities: Abilities): seq<Entry> {
    Close(classes, Seeds(abilities), 0)
  }

  lemma AbilityEntriesStep(abilities: Abilities, a: nat)
    requires a < |abilities|
    ensures AbilityEntries(abilities[a..])
      == WithParams(StatesForAbility(abilities[a].0), abilities[a].1) + AbilityEntries(abilities[a + 1..])
  {
    assert abilities[a..][1..] == abilities[a + 1..];
  }

  /** Step 1: the default states with empty params, then each ability's states with its params. */
  method SeedStateTypes(abilities: Abilities) returns (list: seq<Entry>)
    ensures list == Seeds(abilities)
  {
    list := WithParams(DefaultStatesList, map[]);
    var a := 0;
    assert abilities[a..] == abilities;
    while a < |abilities|
      invariant a <= |abilities|
      invariant list + AbilityEntries(abilities[a..]) == Seeds(abilities)
    {
      AbilityEntriesStep(abilities, a);
      list := list + WithParams(StatesForAbility(abilities[a].0), abilities[a].1);
      a := a + 1;
    }
    assert abilities[a..] == [] && list + [] == list;
  }

  lemma AddMissingStep(list: seq<Entry>, deps: seq<StateKind>, j: nat)
    requires j < |deps|
    ensures AddMissing(list, deps[j..]) == if deps[j] in Kinds(list) then AddMissing(list, deps[j + 1..])
                                           else AddMissing(list + [(deps[j], map[])], deps[j + 1..])
  {
    assert deps[j..][1..] == deps[j + 1..];
  }

  /** The inner loop of step 2: append each of `deps` that no entry lists yet, with empty params. */
  method AppendMissing(list: seq<Entry>, deps: seq<StateKind>) returns (r: seq<Entry>)
    ensures r == AddMissing(list, deps)
  {
    r := list;
    var j := 0;
    assert deps[j..] == deps;
    while j < |deps|
      invariant j <= |deps|
      invariant AddMissing(r, deps[j..]) == AddMissing(list, deps)
    {
      AddMissingStep(r, deps, j);
      if deps[j] !in Kinds(r) {
        r := r + [(deps[j], map[])];
      }
      j := j + 1;
    }
    assert deps[j..] == [];
  }

  /**
   * Steps 1 and 2 as `prepare_object_states` runs them: seed the list, then iterate over it while
   * appending to it each required dependency that no entry lists yet.
   */
  method CollectStateTypes(classes: StateClasses, abilities: Abilities) returns (list: seq<Entry>)
    ensures list == PreparedList(classes, abilities)
  {
    list := SeedStateTypes(abilities);
    var i := 0;
    while i < |list|
      invariant i <= |list|
      invariant Close(classes, list, i) == PreparedList(classes, abilities)
      decreases Unlisted(list), |list| - i
    {
      list := AppendMissing(list, classes.dependencies(list[i].0));
      i := i + 1;
    }
  }

  /** Every required dependency of the first `n` entries is listed. */
  ghost predicate ClosedUpTo(classes: StateClasses, list: seq<Entry>, n: int) {
    forall j, d :: 0 <= j < n && j < |list| && d in classes.dependencies(list[j].0) ==> d in Kinds(list)
  }

  /**
   * Entry `j` was added by the dependency walk: empty params, a state not listed before it, and
   * a required dependency of some earlier entry.
   */
  ghost predicate PulledIn(classes: StateClasses, list: seq<Entry>, j: int) {
    0 <= j < |list| && list[j].1 == map[] && list[j].0 !in Kinds(list)[..j]
    && exists i :: 0 <= i < j && list[j].0 in classes.dependencies(list[i].0)
  }

  /** Every entry from position `n` on was added by the dependency walk. */
  ghost predicate PulledInFrom(classes: StateClasses, list: seq<Entry>, n: int) {
    forall j :: n <= j < |list| ==> PulledIn(classes, list, j)
  }

  /** A dependency of entry `j <= i` is listed once entry `i`'s dependencies are appended. */
  lemma {:induction false} StepKeepsClosedAt(classes: StateClasses, list: seq<Entry>, i: nat, j: nat, d: StateKind)
    requires i < |list| && ClosedUpTo(classes, list, i)
    requires j <= i && d in classes.dependencies(list[j].0)
    ensures var next := AddMissing(list, classes.dependencies(list[i].0));
      j < |next| && next[j] == list[j] && d in Kinds(next)
  {
    var deps := classes.dependencies(list[i].0);
    var next := AddMissing(list, deps);
    assert list <= next;
    if j < i {
      assert d in Kinds(list);
    } else {
      assert d in deps;
    }
  }

  /** One step of the walk keeps the first `i` entries closed and makes entry `i` closed too. */
  lemma {:induction false} StepKeepsClosed(classes: StateClasses, list: seq<Entry>, i: nat)
    requires i < |list| && ClosedUpTo(classes, list, i)
    ensures ClosedUpTo(classes, AddMissing(list, classes.dependencies(list[i].0)), i + 1)
  {
    var deps := classes.dependencies(list[i].0);
    var next := AddMissing(list, deps);
    forall j, d | 0 <= j < i + 1 && j < |next| && d in classes.dependencies(next[j].0)
      ensures d in Kinds(next)
    {
      StepKeepsClosedAt(classes, list, i, j, d);
    }
  }

  /** One step of the walk keeps every pulled-in entry pulled in, and what it appends is pulled in by entry `i`. */
  lemma {:induction false} StepKeepsPulledIn(classes: StateClasses, list: seq<Entry>, i: nat, n: nat)
    requires i < |list| && n <= |list|
    requires PulledInFrom(classes, list, n)
    ensures PulledInFrom(classes, AddMissing(list, classes.dependencies(list[i].0)), n)
  {
    var next := AddMissing(list, classes.dependencies(list[i].0));
    assert next[i] == list[i];
    forall j | n <= j < |next| ensures PulledIn(classes, next, j) {
      if j < |list| {
        assert PulledIn(classes, list, j);
        assert Kinds(next)[..j] == Kinds(list)[..j] && next[j] == list[j];
        var i' :| 0 <= i' < j && list[j].0 in classes.dependencies(list[i'].0);
        assert next[i'] == list[i'];
      }
    }
  }

  lemma {:induction false} CloseFacts(classes: StateClasses, list: seq<Entry>, i: nat, n: nat)
    requires i <= |list| && n <= |list|
    requires ClosedUpTo(classes, list, i)
    requires PulledInFrom(classes, list, n)
    ensures var r := Close(classes, list, i); ClosedUpTo(classes, r, |r|) && PulledInFrom(classes, r, n)
    decreases Unlisted(list), |list| - i
  {
    if i < |list| {
      var next := AddMissing(list, classes.dependencies(list[i].0));
      StepKeepsClosed(classes, list, i);
      StepKeepsPulledIn(classes, list, i, n);
      assert Close(classes, list, i) == Close(classes, next, i + 1);
      CloseFacts(classes, next, i + 1, n);
    }
  }

  /** The dependency walk keeps the seeds as a prefix, lists every required dependency, and adds only dependencies. */
  lemma PreparedListFacts(classes: StateClasses, abilities: Abilities)
    ensures var r := PreparedList(classes, abilities);
      Seeds(abilities) <= r && ClosedUpTo(classes, r, |r|)
      && PulledInFrom(classes, r, |Seeds(abilities)|)
  {
    CloseFacts(classes, Seeds(abilities), 0, |Seeds(abilities)|);
  }

  /** Index of the first entry for `k`. */
  function FirstIndex(list: seq<Entry>, k: StateKind): (j: nat)
    requires k in Kinds(list)
    ensures j < |list| && list[j].0 == k
    ensures forall i :: 0 <= i < j ==> list[i].0 != k
  {
    if list[0].0 == k then 0
    else
      KindsSlice(list, 1, |list|);
      1 + FirstIndex(list[1..], k)
  }

  lemma {:induction false} FirstIndexIs(list: seq<Entry>, k: StateKind, a: int)
    requires 0 <= a < |list| && list[a].0 == k
    requires forall i :: 0 <= i < a ==> list[i].0 != k
    ensures FirstIndex(list, k) == a
  {
  }

  /** An ordered dict from state class to state instance: its keys in insertion order, and its values. */
  datatype StateMap = StateMap(order: seq<StateKind>, instances: map<StateKind, StateInstance>) {
    ghost predicate Valid() {
      Distinct(order) && forall k :: k in instances <==> k in order
    }
  }

  const EmptyStates: StateMap := StateMap([], map[])

  /** `states[k] = inst` on an ordered dict: a new key goes last, an existing key keeps its place. */
  function Put(m: StateMap, k: StateKind, inst: StateInstance): (r: StateMap)
    ensures m.Valid() ==> r.Valid()
    ensures r.instances == m.instances[k := inst]
    ensures m.order <= r.order
  {
    if k in m.instances then StateMap(m.order, m.instances[k := inst])
    else StateMap(m.order + [k], m.instances[k := inst])
  }

  /** The instance built for an entry: `get_object_state_instance(state_type, self, params)`. */
  function InstanceFor(e: Entry): StateInstance {
    ObjectStateInstance(ObjectStateClass(e.0), Some(e.1)).value
  }

  /** The reversed walk: the last entry is assigned first. */
  function FillReversed(m: StateMap, list: seq<Entry>): StateMap
    decreases |list|
  {
    if list == [] then m
    else FillReversed(Put(m, list[|list| - 1].0, InstanceFor(list[|list| - 1])), list[..|list| - 1])
  }

  lemma FillStep(m: StateMap, list: seq<Entry>, i: nat)
    requires i < |list|
    ensures FillReversed(m, list[..i + 1]) == FillReversed(Put(m, list[i].0, InstanceFor(list[i])), list[..i])
  {
    assert list[..i + 1][..i] == list[..i];
  }

  /** `self._states` after `prepare_object_states(abilities)`. */
  function PreparedStates(classes: StateClasses, abilities: Abilities): StateMap {
    FillReversed(EmptyStates, PreparedList(classes, abilities))
  }

  /** The first entry for `k` in `front + [last]` is its first in `front`, or `last` when `front` has none. */
  lemma FirstIndexAppend(front: seq<Entry>, last: Entry, k: StateKind)
    requires k in Kinds(front + [last])
    ensures k in Kinds(front) ==> FirstIndex(front + [last], k) == FirstIndex(front, k)
    ensures k !in Kinds(front) ==> FirstIndex(front + [last], k) == |front| && last.0 == k
  {
    var list := front + [last];
    if k in Kinds(front) {
      var a := FirstIndex(front, k);
      assert list[a] == front[a];
      FirstIndexIs(list, k, a);
    } else {
      forall i | 0 <= i < |front| ensures list[i].0 != k {
        assert Kinds(front)[i] == list[i].0;
      }
      assert Kinds(list)[|front|] == last.0;
      FirstIndexIs(list, k, |front|);
    }
  }

  lemma {:induction false} FillFacts(m: StateMap, list: seq<Entry>)
    requires m.Valid()
    ensures var r := FillReversed(m, list);
      r.Valid() && m.order <= r.order
      && (forall k :: k in r.instances <==> k in m.instances || k in Kinds(list))
      && (forall k :: k in Kinds(list) ==> r.instances[k] == InstanceFor(list[FirstIndex(list, k)]))
      && (forall k :: k in m.instances && k !in Kinds(list) ==> r.instances[k] == m.instances[k])
    decreases |list|
  {
    if list != [] {
      var front := list[..|list| - 1];
      var last := list[|list| - 1];
      assert list == front + [last];
      KindsAppend(front, last);
      var m' := Put(m, last.0, InstanceFor(last));
      FillFacts(m', front);
      forall k | k in Kinds(list) ensures FillReversed(m, list).instances[k] == InstanceFor(list[FirstIndex(list, k)]) {
        FirstIndexAppend(front, last, k);
      }
    }
  }

  /** Walking `a + b` backwards is walking `b`, then `a`. */
  lemma {:induction false} FillSplit(m: StateMap, a: seq<Entry>, b: seq<Entry>)
    ensures FillReversed(m, a + b) == FillReversed(FillReversed(m, b), a)
    decreases |b|
  {
    if b == [] {
      assert a + b == a;
    } else {
      var last := b[|b| - 1];
      var b' := b[..|b| - 1];
      var m' := Put(m, last.0, InstanceFor(last));
      calc {
        FillReversed(m, a + b);
        { assert a + b == (a + b') + [last]; DropLast(a + b', last); }
        FillReversed(m', a + b');
        { FillSplit(m', a, b'); }
        FillReversed(FillReversed(m', b'), a);
        { assert b == b' + [last]; DropLast(b', last); }
        FillReversed(FillReversed(m, b), a);
      }
    }
  }

  lemma {:induction false} DropLast(front: seq<Entry>, last: Entry)
    ensures forall m :: FillReversed(m, front + [last]) == FillReversed(Put(m, last.0, InstanceFor(last)), front)
  {
    assert (front + [last])[..|front|] == front;
  }

  /** The reversed walk reaches entry `j` after the entries behind it and before the ones ahead of it. */
  lemma {:induction false} FillAt(m: StateMap, list: seq<Entry>, j: int)
    requires 0 <= j < |list|
    ensures FillReversed(m, list)
      == FillReversed(Put(FillReversed(m, list[j + 1..]), list[j].0, InstanceFor(list[j])), list[..j])
  {
    var later := list[j + 1..];
    assert list == list[..j] + ([list[j]] + later);
    FillSplit(m, list[..j], [list[j]] + later);
    FillSplit(m, [list[j]], later);
  }

  /**
   * When entry `j` holds the last occurrence of its state, that state enters the map right after
   * exactly the states listed after `j`, here `later`.
   */
  lemma {:induction false} InsertedAfterLater(list: seq<Entry>, j: int, later: seq<Entry>)
    requires 0 <= j < |list| && later == list[j + 1..] && list[j].0 !in Kinds(later)
    ensures forall k :: k in FillReversed(EmptyStates, later).order <==> k in Kinds(later)
    ensures FillReversed(EmptyStates, later).order + [list[j].0] <= FillReversed(EmptyStates, list).order
  {
    var m0 := FillReversed(EmptyStates, later);
    FillFacts(EmptyStates, later);
    var m1 := Put(m0, list[j].0, InstanceFor(list[j]));
    FillAt(EmptyStates, list, j);
    FillFacts(m1, list[..j]);
  }

  /** Every listed state is a key of the filled map. */
  lemma {:induction false} ListedIsKey(list: seq<Entry>, i: int)
    requires 0 <= i < |list|
    ensures list[i].0 in FillReversed(EmptyStates, list).order
  {
    FillFacts(EmptyStates, list);
    assert Kinds(list)[i] == list[i].0;
  }

  /** Position of `k` in `s`. */
  function IndexOf(s: seq<StateKind>, k: StateKind): (p: nat)
    requires k in s
    ensures p < |s| && s[p] == k
    ensures forall q :: 0 <= q < p ==> s[q] != k
  {
    if s[0] == k then 0 else 1 + IndexOf(s[1..], k)
  }

  /** `a` comes before `b` in `s`. */
  predicate Precedes(s: seq<StateKind>, a: StateKind, b: StateKind) {
    a in s && b in s && IndexOf(s, a) < IndexOf(s, b)
  }

  /** A pulled-in entry and any earlier entry occur nowhere after it. */
  lemma {:induction false} PulledInIsLast(classes: StateClasses, list: seq<Entry>, n: int, j: int, i: int)
    requires 0 <= n <= j && 0 <= i < j < |list|
    requires PulledInFrom(classes, list, n)
    ensures list[j].0 !in Kinds(list)[j + 1..] && list[i].0 !in Kinds(list)[j + 1..]
    ensures list[j].0 != list[i].0
  {
    assert PulledIn(classes, list, j);
    assert Kinds(list)[..j][i] == list[i].0;
    forall q | j < q < |list| ensures list[q].0 != list[j].0 && list[q].0 != list[i].0 {
      assert PulledIn(classes, list, q);
      assert Kinds(list)[..q][j] == list[j].0 && Kinds(list)[..q][i] == list[i].0;
    }
    KindsSlice(list, j + 1, |list|);
  }

  /** In a sequence that starts with `pre + [d]`, `d` precedes every element not in `pre + [d]`. */
  lemma {:induction false} PrecedesAfterPrefix(o: seq<StateKind>, pre: seq<StateKind>, d: StateKind, p: StateKind)
    requires pre + [d] <= o && d !in pre
    requires p in o && p !in pre && p != d
    ensures Precedes(o, d, p)
  {
    assert o[|pre|] == d;
    forall q | 0 <= q < |pre| ensures o[q] != d && o[q] != p {
      assert o[q] == pre[q];
    }
  }

  /** A pulled-in entry is put into the filled map before the entry that required it. */
  lemma {:induction false} PulledInPrecedes(classes: StateClasses, list: seq<Entry>, n: int, j: int)
    requires 0 <= n <= j < |list| && PulledInFrom(classes, list, n)
    ensures exists i :: 0 <= i < j && list[j].0 in classes.dependencies(list[i].0)
               && Precedes(FillReversed(EmptyStates, list).order, list[j].0, list[i].0)
  {
    assert PulledIn(classes, list, j);
    var i :| 0 <= i < j && list[j].0 in classes.dependencies(list[i].0);
    PulledInIsLast(classes, list, n, j, i);
    KindsSlice(list, j + 1, |list|);
    var later := list[j + 1..];
    InsertedAfterLater(list, j, later);
    ListedIsKey(list, i);
    PrecedesAfterPrefix(FillReversed(EmptyStates, list).order, FillReversed(EmptyStates, later).order, list[j].0, list[i].0);
  }

  /** Whatever the dependency walk adds is inserted before a state that required it. */
  lemma PulledInComesFirst(classes: StateClasses, abilities: Abilities, j: int)
    requires |Seeds(abilities)| <= j < |PreparedList(classes, abilities)|
    ensures var r := PreparedList(classes, abilities);
      exists i :: 0 <= i < j && r[j].0 in classes.dependencies(r[i].0)
        && Precedes(PreparedStates(classes, abilities).order, r[j].0, r[i].0)
  {
    PreparedListFacts(classes, abilities);
    PulledInPrecedes(classes, PreparedList(classes, abilities), |Seeds(abilities)|, j);
  }

  lemma EntryListed(list: seq<Entry>, e: Entry)
    requires e in list
    ensures e.0 in Kinds(list)
  {
    var p :| 0 <= p < |list| && list[p] == e;
    assert Kinds(list)[p] == e.0;
  }

  /** The prepared map is well formed and its keys are exactly the listed states. */
  lemma PreparedKeys(classes: StateClasses, abilities: Abilities)
    ensures PreparedStates(classes, abilities).Valid()
    ensures forall k :: k in PreparedStates(classes, abilities).instances <==> k in Kinds(PreparedList(classes, abilities))
  {
    FillFacts(EmptyStates, PreparedList(classes, abilities));
  }

  /** The prepared map holds every default state and every state of every declared ability. */
  lemma PreparedStatesCover(classes: StateClasses, abilities: Abilities)
    ensures forall k :: k in DefaultStates() ==> k in PreparedStates(classes, abilities).instances
    ensures forall a, k :: a in abilities && k in StatesForAbility(a.0) ==> k in PreparedStates(classes, abilities).instances
  {
    var seeds := Seeds(abilities);
    var r := PreparedList(classes, abilities);
    var m := PreparedStates(classes, abilities);
    assert seeds <= r;
    SeedsCover(abilities);
    PreparedKeys(classes, abilities);
    forall k | k in DefaultStates() ensures k in m.instances {
      assert (k, map[]) in r;
      EntryListed(r, (k, map[]));
    }
    forall a, k | a in abilities && k in StatesForAbility(a.0) ensures k in m.instances {
      assert (k, a.1) in r;
      EntryListed(r, (k, a.1));
    }
  }

  /** Every required dependency of every prepared state is prepared too. */
  lemma PreparedStatesClosed(classes: StateClasses, abilities: Abilities)
    ensures var m := PreparedStates(classes, abilities);
      forall k, d :: k in m.instances && d in classes.dependencies(k) ==> d in m.instances
  {
    PreparedListFacts(classes, abilities);
    PreparedKeys(classes, abilities);
  }

  /** Each prepared state is built from its earliest list entry. */
  lemma PreparedStatesParams(classes: StateClasses, abilities: Abilities)
    ensures var r := PreparedList(classes, abilities);
      var m := PreparedStates(classes, abilities);
      forall k :: k in m.instances ==> k in Kinds(r) && m.instances[k] == InstanceFor(r[FirstIndex(r, k)])
  {
    FillFacts(EmptyStates, PreparedList(classes, abilities));
  }

  /** A state that is not among the seeds is first listed after them. */
  lemma {:induction false} FirstListedAfterSeeds(classes: StateClasses, abilities: Abilities, k: StateKind)
    requires k in Kinds(PreparedList(classes, abilities)) && k !in Kinds(Seeds(abilities))
    ensures |Seeds(abilities)| <= FirstIndex(PreparedList(classes, abilities), k)
  {
    var r := PreparedList(classes, abilities);
    var seeds := Seeds(abilities);
    PreparedListFacts(classes, abilities);
    forall q | 0 <= q < |seeds| ensures r[q].0 != k {
      assert Kinds(seeds)[q] == seeds[q].0 && r[q] == seeds[q];
    }
  }

  /**
   * A prepared state that is not among the seeds has empty params and is a required dependency
   * of another prepared state, never only an optional one.
   */
  lemma PreparedStatesPulledIn(classes: StateClasses, abilities: Abilities)
    ensures var m := PreparedStates(classes, abilities);
      forall k :: k in m.instances && k !in Kinds(Seeds(abilities)) ==>
        m.instances[k].params == map[] && exists p :: p in m.instances && k in classes.dependencies(p)
  {
    var r := PreparedList(classes, abilities);
    var m := PreparedStates(classes, abilities);
    PreparedListFacts(classes, abilities);
    PreparedKeys(classes, abilities);
    PreparedStatesParams(classes, abilities);
    forall k | k in m.instances && k !in Kinds(Seeds(abilities))
      ensures m.instances[k].params == map[] && exists p :: p in m.instances && k in classes.dependencies(p)
    {
      var j := FirstIndex(r, k);
      FirstListedAfterSeeds(classes, abilities, k);
      assert PulledIn(classes, r, j);
      var i :| 0 <= i < j && r[j].0 in classes.dependencies(r[i].0);
      assert Kinds(r)[i] == r[i].0;
    }
  }
}
