/** `group_in_order` of regression/t4/gateway.py, and why a suite is run in that order. */
module GatewayOrder {
  import opened Common
  import opened Gateways

  /** The dict key of an item: its spec, or its own position when the spec is exclusive. */
  datatype Key = Shared(spec: Spec) | Alone(index: nat)

  datatype Entry<T> = Entry(key: Key, item: T)

  /** One dict entry.  A dict is a sequence of groups in insertion order. */
  datatype Group<T> = Group(key: Key, items: seq<T>)

  function KeyOf(spec: Spec, index: nat): Key {
    if spec.exclusive then Alone(index) else Shared(spec)
  }

  /** `groups.setdefault(key, []).append(item)` */
  function Add<T>(groups: seq<Group<T>>, key: Key, item: T): seq<Group<T>>
    decreases |groups|
  {
    if groups == [] then [Group(key, [item])]
    else if groups[0].key == key then [Group(key, groups[0].items + [item])] + groups[1..]
    else [groups[0]] + Add(groups[1..], key, item)
  }

  function Flatten<T>(groups: seq<Group<T>>): seq<T>
    decreases |groups|
  {
    if groups == [] then [] else groups[0].items + Flatten(groups[1..])
  }

  // ---------------------------------------------------------------- the reference order

  function Keyed<T>(items: seq<T>, specOf: T -> Spec): seq<Entry<T>> {
    seq(|items|, i requires 0 <= i < |items| => Entry(KeyOf(specOf(items[i]), i), items[i]))
  }

  function Items<T>(entries: seq<Entry<T>>): seq<T> {
    seq(|entries|, i requires 0 <= i < |entries| => entries[i].item)
  }

  /** The items filed under `key`, in order. */
  function Pick<T>(entries: seq<Entry<T>>, key: Key): seq<T>
    decreases |entries|
  {
    if entries == [] then []
    else if entries[0].key == key then [entries[0].item] + Pick(entries[1..], key)
    else Pick(entries[1..], key)
  }

  function Drop<T>(entries: seq<Entry<T>>, key: Key): (r: seq<Entry<T>>)
    ensures |r| <= |entries|
    decreases |entries|
  {
    if entries == [] then []
    else if entries[0].key == key then Drop(entries[1..], key)
    else [entries[0]] + Drop(entries[1..], key)
  }

  /** The group of the first entry, and then the others arranged in the same way. */
  function Arranged<T>(entries: seq<Entry<T>>): seq<T>
    decreases |entries|
  {
    if entries == [] then []
    else Pick(entries, entries[0].key) + Arranged(Drop(entries[1..], entries[0].key))
  }

  function Grouped<T>(items: seq<T>, specOf: T -> Spec): seq<T> {
    Arranged(Keyed(items, specOf))
  }

  // ---------------------------------------------------------------- the loop

  function AddAll<T>(groups: seq<Group<T>>, entries: seq<Entry<T>>): seq<Group<T>>
    decreases |entries|
  {
    if entries == [] then groups
    else AddAll(Add(groups, entries[0].key, entries[0].item), entries[1..])
  }

  /** The items by the first appearance of their group and, within a group, by position. */
  method GroupInOrder<T>(items: seq<T>, specOf: T -> Spec) returns (r: seq<T>)
    ensures r == Grouped(items, specOf)
    ensures exists at :: |at| == |items| && ByAppearance(at, items, specOf) && Found(r, at, items)
  {
    r := GroupLoop(items, specOf);
    ghost var at := GroupedByAppearance(items, specOf);
  }

  method GroupLoop<T>(items: seq<T>, specOf: T -> Spec) returns (r: seq<T>)
    ensures r == Grouped(items, specOf)
  {
    var groups: seq<Group<T>> := [];
    ghost var entries := Keyed(items, specOf);
    for index := 0 to |items|
      invariant AddAll(groups, entries[index..]) == AddAll([], entries)
    {
      assert entries[index..][0] == entries[index] && entries[index..][1..] == entries[index + 1..];
      var spec := specOf(items[index]);
      groups := Add(groups, KeyOf(spec, index), items[index]);
    }
    AddAllArranges(entries);
    r := [];
    for i := 0 to |groups|
      invariant r + Flatten(groups[i..]) == Flatten(groups)
    {
      assert groups[i..][0] == groups[i] && groups[i..][1..] == groups[i + 1..];
      r := r + groups[i].items;
    }
  }

  /** The first group of the dict collects its key's entries and leaves the others to the rest of the dict. */
  lemma {:induction false} FirstGroup<T>(first: Group<T>, rest: seq<Group<T>>, entries: seq<Entry<T>>)
    ensures AddAll([first] + rest, entries)
      == [Group(first.key, first.items + Pick(entries, first.key))] + AddAll(rest, Drop(entries, first.key))
    decreases |entries|
  {
    if entries == [] {
      assert first.items + Pick(entries, first.key) == first.items;
    } else if entries[0].key == first.key {
      var first' := Group(first.key, first.items + [entries[0].item]);
      assert Add([first] + rest, entries[0].key, entries[0].item) == [first'] + rest;
      FirstGroup(first', rest, entries[1..]);
      assert first'.items + Pick(entries[1..], first.key) == first.items + Pick(entries, first.key);
    } else {
      var rest' := Add(rest, entries[0].key, entries[0].item);
      assert ([first] + rest)[1..] == rest;
      assert Add([first] + rest, entries[0].key, entries[0].item) == [first] + rest';
      FirstGroup(first, rest', entries[1..]);
      var dropped := Drop(entries, first.key);
      assert dropped[1..] == Drop(entries[1..], first.key);
    }
  }

  lemma {:induction false} AddAllArranges<T>(entries: seq<Entry<T>>)
    ensures Flatten(AddAll([], entries)) == Arranged(entries)
    decreases |entries|
  {
    if entries != [] {
      var e := entries[0];
      assert Add([], e.key, e.item) == [Group(e.key, [e.item])] + [];
      FirstGroup(Group(e.key, [e.item]), [], entries[1..]);
      AddAllArranges(Drop(entries[1..], e.key));
    }
  }

  // ---------------------------------------------------------------- permutation and stability

  /** Keys belong to the items they file, and an exclusive item has its key for itself. */
  ghost predicate WellKeyed<T>(entries: seq<Entry<T>>, specOf: T -> Spec)
    decreases |entries|
  {
    entries != [] ==>
      && RightKey(entries[0], specOf)
      && (entries[0].key.Alone? ==> forall e :: e in entries[1..] ==> e.key != entries[0].key)
      && WellKeyed(entries[1..], specOf)
  }

  ghost predicate RightKey<T>(e: Entry<T>, specOf: T -> Spec) {
    if specOf(e.item).exclusive then e.key.Alone? else e.key == Shared(specOf(e.item))
  }

  lemma {:induction false} KeyedFrom<T>(items: seq<T>, specOf: T -> Spec, i: nat)
    requires i <= |items|
    ensures WellKeyed(Keyed(items, specOf)[i..], specOf)
    decreases |items| - i
  {
    var entries := Keyed(items, specOf)[i..];
    if i < |items| {
      KeyedFrom(items, specOf, i + 1);
      assert entries[1..] == Keyed(items, specOf)[i + 1..];
    }
  }

  lemma {:induction false} KeyedWell<T>(items: seq<T>, specOf: T -> Spec)
    ensures WellKeyed(Keyed(items, specOf), specOf)
    ensures Items(Keyed(items, specOf)) == items
  {
    KeyedFrom(items, specOf, 0);
    assert Keyed(items, specOf)[0..] == Keyed(items, specOf);
  }

  lemma {:induction false} DropKeeps<T>(entries: seq<Entry<T>>, key: Key)
    ensures forall e :: e in Drop(entries, key) ==> e in entries
    decreases |entries|
  {
    if entries != [] {
      DropKeeps(entries[1..], key);
    }
  }

  lemma {:induction false} DropWell<T>(entries: seq<Entry<T>>, key: Key, specOf: T -> Spec)
    requires WellKeyed(entries, specOf)
    ensures WellKeyed(Drop(entries, key), specOf)
    decreases |entries|
  {
    if entries != [] {
      DropWell(entries[1..], key, specOf);
      if entries[0].key != key {
        DropKeeps(entries[1..], key);
        var dropped := Drop(entries, key);
        assert dropped[0] == entries[0] && dropped[1..] == Drop(entries[1..], key);
        forall e | e in dropped[1..]
          ensures e in entries[1..]
        {
          assert e in Drop(entries[1..], key);
        }
      }
    }
  }

  lemma {:induction false} NothingToDrop<T>(entries: seq<Entry<T>>, key: Key)
    requires forall e :: e in entries ==> e.key != key
    ensures Pick(entries, key) == [] && Drop(entries, key) == entries
    decreases |entries|
  {
    if entries != [] {
      NothingToDrop(entries[1..], key);
    }
  }

  /** Removing the head of the arrangement: an exclusive item alone, or a shared spec's whole group. */
  lemma {:induction false} HeadGroup<T>(entries: seq<Entry<T>>, specOf: T -> Spec)
    requires WellKeyed(entries, specOf) && entries != []
    ensures entries[0].key.Alone? ==>
      Pick(entries, entries[0].key) == [entries[0].item] && Drop(entries[1..], entries[0].key) == entries[1..]
    ensures WellKeyed(Drop(entries[1..], entries[0].key), specOf)
  {
    DropWell(entries[1..], entries[0].key, specOf);
    if entries[0].key.Alone? {
      NothingToDrop(entries[1..], entries[0].key);
    }
  }

  lemma {:induction false} ItemsCons<T>(entries: seq<Entry<T>>)
    requires entries != []
    ensures Items(entries) == [entries[0].item] + Items(entries[1..])
    ensures Items(entries)[0] == entries[0].item && Items(entries)[1..] == Items(entries[1..])
  {
  }

  lemma {:induction false} BagCons<T>(x: T, s: seq<T>)
    ensures multiset([x] + s) == multiset{x} + multiset(s)
  {
  }

  lemma {:induction false} BagMove<T>(x: multiset<T>, all: multiset<T>, a: multiset<T>, b: multiset<T>)
    requires all == a + b
    ensures x + all == (x + a) + b && x + all == a + (x + b)
  {
  }

  lemma {:induction false} PickAndDrop<T>(entries: seq<Entry<T>>, key: Key)
    ensures multiset(Items(entries)) == multiset(Pick(entries, key)) + multiset(Items(Drop(entries, key)))
    decreases |entries|
  {
    if entries != [] {
      var bag := multiset{entries[0].item};
      PickAndDrop(entries[1..], key);
      ItemsCons(entries);
      BagCons(entries[0].item, Items(entries[1..]));
      BagMove(bag, multiset(Items(entries[1..])), multiset(Pick(entries[1..], key)), multiset(Items(Drop(entries[1..], key))));
      if entries[0].key == key {
        BagCons(entries[0].item, Pick(entries[1..], key));
      } else {
        ItemsCons([entries[0]] + Drop(entries[1..], key));
        assert ([entries[0]] + Drop(entries[1..], key))[1..] == Drop(entries[1..], key);
        BagCons(entries[0].item, Items(Drop(entries[1..], key)));
      }
    }
  }

  lemma {:induction false} ArrangedPermutes<T>(entries: seq<Entry<T>>)
    ensures multiset(Arranged(entries)) == multiset(Items(entries))
    decreases |entries|
  {
    if entries != [] {
      PickAndDrop(entries, entries[0].key);
      ArrangedPermutes(Drop(entries[1..], entries[0].key));
      assert Drop(entries, entries[0].key) == Drop(entries[1..], entries[0].key);
    }
  }

  function OfSpec<T>(items: seq<T>, specOf: T -> Spec, spec: Spec): seq<T>
    decreases |items|
  {
    if items == [] then []
    else if specOf(items[0]) == spec then [items[0]] + OfSpec(items[1..], specOf, spec)
    else OfSpec(items[1..], specOf, spec)
  }

  lemma {:induction false} OfSpecConcat<T>(a: seq<T>, b: seq<T>, specOf: T -> Spec, spec: Spec)
    ensures OfSpec(a + b, specOf, spec) == OfSpec(a, specOf, spec) + OfSpec(b, specOf, spec)
    decreases |a|
  {
    if a == [] {
      assert a + b == b;
    } else {
      assert (a + b)[1..] == a[1..] + b;
      OfSpecConcat(a[1..], b, specOf, spec);
    }
  }

  /** Pulling one shared group to the front keeps the order of its items. */
  lemma {:induction false} PullSame<T>(entries: seq<Entry<T>>, group: Spec, specOf: T -> Spec)
    requires WellKeyed(entries, specOf) && !group.exclusive
    ensures OfSpec(Pick(entries, Shared(group)), specOf, group) == OfSpec(Items(entries), specOf, group)
    ensures OfSpec(Items(Drop(entries, Shared(group))), specOf, group) == []
    decreases |entries|
  {
    if entries != [] {
      PullSame(entries[1..], group, specOf);
      assert Items(entries)[1..] == Items(entries[1..]);
      var dropped := Drop(entries, Shared(group));
      if entries[0].key != Shared(group) {
        assert Items(dropped)[1..] == Items(Drop(entries[1..], Shared(group)));
      } else {
        var picked := Pick(entries, Shared(group));
        assert picked[1..] == Pick(entries[1..], Shared(group));
      }
    }
  }

  /** And the order of the items of every other spec. */
  lemma {:induction false} PullOther<T>(entries: seq<Entry<T>>, group: Spec, specOf: T -> Spec, spec: Spec)
    requires WellKeyed(entries, specOf) && spec != group
    ensures OfSpec(Pick(entries, Shared(group)), specOf, spec) == []
    ensures OfSpec(Items(Drop(entries, Shared(group))), specOf, spec) == OfSpec(Items(entries), specOf, spec)
    decreases |entries|
  {
    if entries != [] {
      PullOther(entries[1..], group, specOf, spec);
      assert Items(entries)[1..] == Items(entries[1..]);
      var dropped := Drop(entries, Shared(group));
      if entries[0].key != Shared(group) {
        assert Items(dropped)[1..] == Items(Drop(entries[1..], Shared(group)));
      } else {
        var picked := Pick(entries, Shared(group));
        assert picked[1..] == Pick(entries[1..], Shared(group));
      }
    }
  }

  /** Pulling the first item's group to the front keeps the order of every spec's items. */
  lemma {:induction false} GroupStable<T>(entries: seq<Entry<T>>, rest: seq<Entry<T>>, specOf: T -> Spec, spec: Spec)
    requires WellKeyed(entries, specOf) && entries != [] && rest == Drop(entries[1..], entries[0].key)
    ensures OfSpec(Pick(entries, entries[0].key), specOf, spec) + OfSpec(Items(rest), specOf, spec)
      == OfSpec(Items(entries), specOf, spec)
  {
    var key := entries[0].key;
    HeadGroup(entries, specOf);
    if key.Alone? {
      assert Items(entries) == [entries[0].item] + Items(rest);
      OfSpecConcat([entries[0].item], Items(rest), specOf, spec);
    } else if spec == key.spec {
      PullSame(entries, spec, specOf);
    } else {
      PullOther(entries, key.spec, specOf, spec);
    }
  }

  lemma {:induction false} ArrangedStable<T>(entries: seq<Entry<T>>, specOf: T -> Spec, spec: Spec)
    requires WellKeyed(entries, specOf)
    ensures OfSpec(Arranged(entries), specOf, spec) == OfSpec(Items(entries), specOf, spec)
    decreases |entries|
  {
    if entries != [] {
      var rest := Drop(entries[1..], entries[0].key);
      HeadGroup(entries, specOf);
      GroupStable(entries, rest, specOf, spec);
      ArrangedStable(rest, specOf, spec);
      OfSpecConcat(Pick(entries, entries[0].key), Arranged(rest), specOf, spec);
    }
  }

  /** The order is a permutation of the suite, and stable for every spec, exclusive ones included. */
  lemma {:induction false} GroupedIsStable<T>(items: seq<T>, specOf: T -> Spec)
    ensures multiset(Grouped(items, specOf)) == multiset(items)
    ensures forall spec :: OfSpec(Grouped(items, specOf), specOf, spec) == OfSpec(items, specOf, spec)
  {
    KeyedWell(items, specOf);
    ArrangedPermutes(Keyed(items, specOf));
    forall spec
      ensures OfSpec(Grouped(items, specOf), specOf, spec) == OfSpec(items, specOf, spec)
    {
      ArrangedStable(Keyed(items, specOf), specOf, spec);
      assert Items(Keyed(items, specOf)) == items;
    }
  }

  // ---------------------------------------------------------------- the order of the groups

  /** The items of a shared spec form a group; an exclusive item is a group of its own. */
  predicate SameGroup<T>(items: seq<T>, specOf: T -> Spec, i: nat, j: nat)
    requires i < |items| && j < |items|
  {
    i == j || (specOf(items[i]) == specOf(items[j]) && !specOf(items[i]).exclusive)
  }

  function FirstFrom<T>(items: seq<T>, specOf: T -> Spec, i: nat, from: nat): (r: nat)
    requires from <= i < |items|
    ensures from <= r <= i && SameGroup(items, specOf, r, i)
    ensures forall k :: from <= k < r ==> !SameGroup(items, specOf, k, i)
    decreases i - from
  {
    if SameGroup(items, specOf, from, i) then from else FirstFrom(items, specOf, i, from + 1)
  }

  /** Where the group of an item first appears. */
  function Appears<T>(items: seq<T>, specOf: T -> Spec, i: nat): nat
    requires i < |items|
  {
    FirstFrom(items, specOf, i, 0)
  }

  /** The group of `p` appears before that of `q`, or they are of one group and `p` comes first. */
  predicate Comes<T>(items: seq<T>, specOf: T -> Spec, p: nat, q: nat)
    requires p < |items| && q < |items|
  {
    var first, second := Appears(items, specOf, p), Appears(items, specOf, q);
    first < second || (first == second && p < q)
  }

  /** Positions by the first appearance of their group and, within a group, in order. */
  ghost predicate ByAppearance<T>(at: seq<nat>, items: seq<T>, specOf: T -> Spec) {
    && (forall k :: 0 <= k < |at| ==> at[k] < |items|)
    && (forall a, b :: 0 <= a < b < |at| ==> Comes(items, specOf, at[a], at[b]))
  }

  /** The entries with the positions of the items in place of the items. */
  function Marked<T>(items: seq<T>, specOf: T -> Spec): seq<Entry<nat>> {
    seq(|items|, i requires 0 <= i < |items| => Entry(KeyOf(specOf(items[i]), i), i))
  }

  ghost predicate Follows<T>(es: seq<Entry<T>>, ps: seq<Entry<nat>>, items: seq<T>) {
    |es| == |ps| && forall i :: 0 <= i < |es| ==> es[i].key == ps[i].key && ps[i].item < |items| && es[i].item == items[ps[i].item]
  }

  ghost predicate Found<T>(xs: seq<T>, at: seq<nat>, items: seq<T>) {
    |xs| == |at| && forall k :: 0 <= k < |xs| ==> at[k] < |items| && xs[k] == items[at[k]]
  }

  lemma {:induction false} PartsFollow<T>(es: seq<Entry<T>>, ps: seq<Entry<nat>>, items: seq<T>, key: Key)
    requires Follows(es, ps, items)
    ensures Found(Pick(es, key), Pick(ps, key), items) && Follows(Drop(es, key), Drop(ps, key), items)
    decreases |es|
  {
    if es != [] {
      var es', ps' := es[1..], ps[1..];
      PartsFollow(es', ps', items, key);
      assert Found([es[0].item] + Pick(es', key), [ps[0].item] + Pick(ps', key), items);
    }
  }

  /** Arranging does not look at the items. */
  lemma {:induction false} ArrangedFollows<T>(es: seq<Entry<T>>, ps: seq<Entry<nat>>, items: seq<T>)
    requires Follows(es, ps, items)
    ensures Found(Arranged(es), Arranged(ps), items)
    decreases |es|
  {
    if es != [] {
      PartsFollow(es, ps, items, es[0].key);
      PartsFollow(es[1..], ps[1..], items, es[0].key);
      ArrangedFollows(Drop(es[1..], es[0].key), Drop(ps[1..], es[0].key), items);
    }
  }

  /** Some whole groups, in the order of the items. */
  ghost predicate Groups<T>(ps: seq<Entry<nat>>, items: seq<T>, specOf: T -> Spec) {
    && Increasing(Items(ps))
    && (forall e :: e in ps ==> e.item < |items| && e.key == KeyOf(specOf(items[e.item]), e.item))
    && (forall e, p: nat :: e in ps && p < |items| && SameGroup(items, specOf, p, e.item) ==>
          Entry(KeyOf(specOf(items[p]), p), p) in ps)
  }

  lemma {:induction false} PickMeans(ps: seq<Entry<nat>>, key: Key)
    requires Increasing(Items(ps))
    ensures Increasing(Pick(ps, key))
    ensures forall x :: x in Pick(ps, key) ==> Entry(key, x) in ps
    decreases |ps|
  {
    if ps != [] {
      ItemsCons(ps);
      PickMeans(ps[1..], key);
      var tail := Pick(ps[1..], key);
      forall i | 0 <= i < |tail| ensures ps[0].item < tail[i] {
        assert tail[i] in tail;
        AfterFirst(ps, Entry(key, tail[i]));
      }
      assert ps[0] in ps && forall e :: e in ps[1..] ==> e in ps;
    }
  }

  lemma {:induction false} AfterFirst(ps: seq<Entry<nat>>, e: Entry<nat>)
    requires ps != [] && Increasing(Items(ps)) && e in ps[1..]
    ensures ps[0].item < e.item
  {
    var i :| 0 <= i < |ps[1..]| && ps[1..][i] == e;
    assert Items(ps)[0] == ps[0].item && Items(ps)[i + 1] == e.item;
  }

  lemma {:induction false} DropMeans(ps: seq<Entry<nat>>, key: Key, e: Entry<nat>)
    requires Increasing(Items(ps))
    ensures Increasing(Items(Drop(ps, key)))
    ensures e in Drop(ps, key) <==> e in ps && e.key != key
    decreases |ps|
  {
    if ps != [] {
      ItemsCons(ps);
      DropMeans(ps[1..], key, e);
      if ps[0].key != key {
        var rest := Drop(ps[1..], key);
        ItemsCons([ps[0]] + rest);
        assert ([ps[0]] + rest)[1..] == rest;
        forall i | 0 <= i < |rest| ensures ps[0].item < Items(rest)[i] {
          DropKeeps(ps[1..], key);
          assert rest[i] in rest;
          AfterFirst(ps, rest[i]);
        }
      }
    }
  }

  /** Without its first group they are still whole groups. */
  lemma {:induction false} RestGroups<T>(ps: seq<Entry<nat>>, items: seq<T>, specOf: T -> Spec)
    requires ps != [] && Groups(ps, items, specOf)
    ensures Groups(Drop(ps, ps[0].key), items, specOf)
    ensures forall e :: e in Drop(ps, ps[0].key) <==> e in ps && e.key != ps[0].key
  {
    forall e ensures e in Drop(ps, ps[0].key) <==> e in ps && e.key != ps[0].key {
      DropMeans(ps, ps[0].key, e);
    }
    DropMeans(ps, ps[0].key, ps[0]);
  }

  /** The first group appears where its first item stands, and the others appear later. */
  lemma {:induction false} AppearsFrom<T>(ps: seq<Entry<nat>>, items: seq<T>, specOf: T -> Spec, e: Entry<nat>)
    requires ps != [] && Groups(ps, items, specOf) && e in ps
    ensures e.key == ps[0].key ==> Appears(items, specOf, e.item) == ps[0].item
    ensures e.key != ps[0].key ==> Appears(items, specOf, e.item) > ps[0].item
  {
    var p := Appears(items, specOf, e.item);
    var first := Entry(KeyOf(specOf(items[p]), p), p);
    assert first in ps;
    if first != ps[0] {
      assert first in ps[1..];
      AfterFirst(ps, first);
    }
    assert ps[0] in ps;
    assert e.key == ps[0].key <==> SameGroup(items, specOf, ps[0].item, e.item);
  }

  lemma {:induction false} ArrangedSorted<T>(ps: seq<Entry<nat>>, items: seq<T>, specOf: T -> Spec)
    requires Groups(ps, items, specOf)
    ensures forall x :: x in Arranged(ps) ==> x < |items| && Entry(KeyOf(specOf(items[x]), x), x) in ps
    ensures ByAppearance(Arranged(ps), items, specOf)
    decreases |ps|
  {
    if ps != [] {
      var key := ps[0].key;
      var rest := Drop(ps, key);
      assert rest == Drop(ps[1..], key);
      RestGroups(ps, items, specOf);
      ArrangedSorted(rest, items, specOf);
      PickMeans(ps, key);
      GroupFirst(ps, items, specOf, Pick(ps, key), Arranged(rest));
    }
  }

  lemma {:induction false} GroupFirst<T>(ps: seq<Entry<nat>>, items: seq<T>, specOf: T -> Spec, group: seq<nat>, others: seq<nat>)
    requires ps != [] && Groups(ps, items, specOf) && Increasing(group)
    requires forall x :: x in group ==> Entry(ps[0].key, x) in ps
    requires forall x :: x in others ==> x < |items| && Entry(KeyOf(specOf(items[x]), x), x) in Drop(ps, ps[0].key)
    requires ByAppearance(others, items, specOf)
    ensures forall x :: x in group + others ==> x < |items| && Entry(KeyOf(specOf(items[x]), x), x) in ps
    ensures ByAppearance(group + others, items, specOf)
  {
    RestGroups(ps, items, specOf);
    forall x | x in group ensures x < |items| && Appears(items, specOf, x) == ps[0].item {
      AppearsFrom(ps, items, specOf, Entry(ps[0].key, x));
    }
    forall x | x in others ensures Appears(items, specOf, x) > ps[0].item {
      AppearsFrom(ps, items, specOf, Entry(KeyOf(specOf(items[x]), x), x));
    }
    assert forall k :: 0 <= k < |group| ==> group[k] in group;
    assert forall k :: 0 <= k < |others| ==> others[k] in others;
  }

  /** The result lists all items by the first appearance of their group and, within a group, by
      position, which leaves it no freedom. */
  lemma {:induction false} GroupedByAppearance<T>(items: seq<T>, specOf: T -> Spec) returns (at: seq<nat>)
    ensures Found(Grouped(items, specOf), at, items) && |at| == |items|
    ensures ByAppearance(at, items, specOf)
  {
    var ps := Marked(items, specOf);
    at := Arranged(ps);
    ArrangedFollows(Keyed(items, specOf), ps, items);
    forall e, p: nat | e in ps && p < |items| && SameGroup(items, specOf, p, e.item)
      ensures Entry(KeyOf(specOf(items[p]), p), p) in ps
    {
      assert ps[p] in ps;
    }
    ArrangedSorted(ps, items, specOf);
    GroupedIsStable(items, specOf);
    SameLength(Grouped(items, specOf), items);
  }

  lemma {:induction false} SameLength<T>(a: seq<T>, b: seq<T>)
    requires multiset(a) == multiset(b)
    ensures |a| == |b|
  {
    assert |multiset(a)| == |a| && |multiset(b)| == |b|;
  }

  // ---------------------------------------------------------------- launches

  /** The pool after each item in turn acquired its gateway and released it, every start and stop succeeding. */
  function RunItems<T>(p: Pool, items: seq<T>, specOf: T -> Spec): Pool
    decreases |items|
  {
    if items == [] then p
    else
      var acquired := Acquire(p, specOf(items[0]), true, Starts);
      RunItems(if acquired.1.Ok? then Release(acquired.0, acquired.1.value) else acquired.0, items[1..], specOf)
  }

  predicate NeedsGateway(spec: Spec, external: bool) {
    !(spec.IsDefault() && external)
  }

  /** The spec of the running gateway after one item. */
  function NextSpec(spec: Spec, external: bool, current: Option<Spec>): Option<Spec> {
    if !NeedsGateway(spec, external) then current else if spec.exclusive then None else Some(spec)
  }

  function Launches<T>(items: seq<T>, specOf: T -> Spec, external: bool, current: Option<Spec>): nat
    decreases |items|
  {
    if items == [] then 0
    else
      var spec := specOf(items[0]);
      (if !NeedsGateway(spec, external) || (current == Some(spec) && !spec.exclusive) then 0 else 1)
      + Launches(items[1..], specOf, external, NextSpec(spec, external, current))
  }

  function CurrentSpec(p: Pool): Option<Spec> {
    if p.current.Some? then Some(p.current.value.spec) else None
  }

  lemma {:induction false} RunLaunches<T>(p: Pool, items: seq<T>, specOf: T -> Spec)
    ensures RunItems(p, items, specOf).starts == p.starts + Launches(items, specOf, p.external, CurrentSpec(p))
    decreases |items|
  {
    if items != [] {
      var acquired := Acquire(p, specOf(items[0]), true, Starts);
      RunLaunches(Release(acquired.0, acquired.1.value), items[1..], specOf);
    }
  }

  /** The distinct managed specs that are not exclusive. */
  function SharedSpecs<T>(items: seq<T>, specOf: T -> Spec, external: bool): set<Spec> {
    set i | 0 <= i < |items| && !specOf(items[i]).exclusive && NeedsGateway(specOf(items[i]), external) :: specOf(items[i])
  }

  function ExclusiveItems<T>(items: seq<T>, specOf: T -> Spec): nat
    decreases |items|
  {
    if items == [] then 0 else (if specOf(items[0]).exclusive then 1 else 0) + ExclusiveItems(items[1..], specOf)
  }

  lemma {:induction false} SharedSpecsCons<T>(items: seq<T>, specOf: T -> Spec, external: bool)
    requires items != []
    ensures SharedSpecs(items, specOf, external) == SharedSpecs(items[1..], specOf, external)
      + (if !specOf(items[0]).exclusive && NeedsGateway(specOf(items[0]), external) then {specOf(items[0])} else {})
  {
    var tail := items[1..];
    assert forall i :: 0 <= i < |tail| ==> tail[i] == items[i + 1];
    forall s | s in SharedSpecs(items, specOf, external)
      ensures s == specOf(items[0]) || s in SharedSpecs(tail, specOf, external)
    {
      var i :| 0 <= i < |items| && !specOf(items[i]).exclusive && NeedsGateway(specOf(items[i]), external) && specOf(items[i]) == s;
      if i > 0 {
        assert tail[i - 1] == items[i];
      }
    }
  }

  lemma {:induction false} Shrinks(a: set<Spec>, b: set<Spec>, s: Spec)
    requires a <= b + {s}
    ensures |a| <= |b - {s}| + 1
  {
    assert a - {s} <= b - {s};
    Smaller(a - {s}, b - {s});
    if s in a {
      assert a == (a - {s}) + {s};
    } else {
      assert a == a - {s};
    }
  }

  lemma {:induction false} Smaller(a: set<Spec>, b: set<Spec>)
    requires a <= b
    ensures |a| <= |b|
    decreases |a|
  {
    if x :| x in a {
      Smaller(a - {x}, b - {x});
    }
  }

  function Running(current: Option<Spec>): set<Spec> {
    if current.Some? then {current.value} else {}
  }

  /** However the items are ordered, each shared spec other than the running one and each exclusive
      item costs a launch. */
  lemma {:induction false} LaunchesAtLeast<T>(items: seq<T>, specOf: T -> Spec, external: bool, current: Option<Spec>)
    ensures Launches(items, specOf, external, current)
      >= |SharedSpecs(items, specOf, external) - Running(current)| + ExclusiveItems(items, specOf)
    decreases |items|
  {
    if items != [] {
      var spec := specOf(items[0]);
      SharedSpecsCons(items, specOf, external);
      LaunchesAtLeast(items[1..], specOf, external, NextSpec(spec, external, current));
      HeadLowers(SharedSpecs(items, specOf, external), SharedSpecs(items[1..], specOf, external), spec, external, current);
    }
  }

  lemma {:induction false} HeadLowers(all: set<Spec>, tail: set<Spec>, spec: Spec, external: bool, current: Option<Spec>)
    requires all == tail + (if !spec.exclusive && NeedsGateway(spec, external) then {spec} else {})
    ensures |all - Running(current)| <= |tail - Running(NextSpec(spec, external, current))|
      + (if !NeedsGateway(spec, external) || spec.exclusive || current == Some(spec) then 0 else 1)
  {
    if spec.exclusive {
      Smaller(all - Running(current), tail - {});
    } else if NeedsGateway(spec, external) {
      if current == Some(spec) {
        assert all - Running(current) == tail - {spec};
      } else {
        Shrinks(all - Running(current), tail, spec);
      }
    }
  }

  /** Once its gateway runs, a block of items of one shared spec launches nothing. */
  lemma {:induction false} BlockRuns<T>(block: seq<T>, rest: seq<T>, specOf: T -> Spec, spec: Spec, external: bool, current: Option<Spec>)
    requires !spec.exclusive && forall x :: x in block ==> specOf(x) == spec
    requires NeedsGateway(spec, external) ==> current == Some(spec)
    ensures Launches(block + rest, specOf, external, current) == Launches(rest, specOf, external, current)
    decreases |block|
  {
    if block == [] {
      assert block + rest == rest;
    } else {
      assert (block + rest)[1..] == block[1..] + rest && (block + rest)[0] == block[0];
      BlockRuns(block[1..], rest, specOf, spec, external, current);
    }
  }

  lemma {:induction false} PickHasSpec<T>(entries: seq<Entry<T>>, spec: Spec, specOf: T -> Spec)
    requires WellKeyed(entries, specOf)
    ensures forall x :: x in Pick(entries, Shared(spec)) ==> specOf(x) == spec && !spec.exclusive
    decreases |entries|
  {
    if entries != [] {
      PickHasSpec(entries[1..], spec, specOf);
    }
  }

  /** Removing a shared group takes away its spec ... */
  lemma {:induction false} DropSpecs<T>(entries: seq<Entry<T>>, spec: Spec, specOf: T -> Spec, external: bool)
    requires WellKeyed(entries, specOf) && !spec.exclusive
    ensures SharedSpecs(Items(Drop(entries, Shared(spec))), specOf, external) == SharedSpecs(Items(entries), specOf, external) - {spec}
    decreases |entries|
  {
    if entries != [] {
      DropSpecs(entries[1..], spec, specOf, external);
      ItemsCons(entries);
      SharedSpecsCons(Items(entries), specOf, external);
      if entries[0].key != Shared(spec) {
        var dropped := Drop(entries, Shared(spec));
        ItemsCons(dropped);
        assert dropped[1..] == Drop(entries[1..], Shared(spec));
        SharedSpecsCons(Items(dropped), specOf, external);
      }
    }
  }

  /** ... and no exclusive item. */
  lemma {:induction false} DropExclusives<T>(entries: seq<Entry<T>>, spec: Spec, specOf: T -> Spec)
    requires WellKeyed(entries, specOf) && !spec.exclusive
    ensures ExclusiveItems(Items(Drop(entries, Shared(spec))), specOf) == ExclusiveItems(Items(entries), specOf)
    decreases |entries|
  {
    if entries != [] {
      DropExclusives(entries[1..], spec, specOf);
      ItemsCons(entries);
      if entries[0].key != Shared(spec) {
        var dropped := Drop(entries, Shared(spec));
        ItemsCons(dropped);
        assert dropped[1..] == Drop(entries[1..], Shared(spec));
      }
    }
  }

  /** The grouped order pays exactly once per shared spec and once per exclusive item. */
  lemma {:induction false} ArrangedLaunches<T>(entries: seq<Entry<T>>, specOf: T -> Spec, external: bool, current: Option<Spec>)
    requires WellKeyed(entries, specOf)
    requires Running(current) !! SharedSpecs(Items(entries), specOf, external)
    ensures Launches(Arranged(entries), specOf, external, current)
      == |SharedSpecs(Items(entries), specOf, external)| + ExclusiveItems(Items(entries), specOf)
    decreases |entries|
  {
    if entries != [] {
      HeadGroup(entries, specOf);
      GroupLaunches(entries, specOf, external, current);
      RestCounts(entries, specOf, external, current);
      ArrangedLaunches(Drop(entries[1..], entries[0].key), specOf, external,
                       NextSpec(specOf(entries[0].item), external, current));
    }
  }

  /** What the first group of the arrangement takes away from the two counts. */
  lemma {:induction false} RestCounts<T>(entries: seq<Entry<T>>, specOf: T -> Spec, external: bool, current: Option<Spec>)
    requires WellKeyed(entries, specOf) && entries != []
    requires Running(current) !! SharedSpecs(Items(entries), specOf, external)
    ensures var spec, all, rest := specOf(entries[0].item), Items(entries), Items(Drop(entries[1..], entries[0].key));
      && |SharedSpecs(all, specOf, external)| + ExclusiveItems(all, specOf)
        == |SharedSpecs(rest, specOf, external)| + ExclusiveItems(rest, specOf) + (if NeedsGateway(spec, external) then 1 else 0)
      && Running(NextSpec(spec, external, current)) !! SharedSpecs(rest, specOf, external)
  {
    var spec, rest := specOf(entries[0].item), Drop(entries[1..], entries[0].key);
    RestSpecs(entries, rest, specOf, external);
    HeadCost(SharedSpecs(Items(entries), specOf, external), spec);
  }

  lemma {:induction false} RestSpecs<T>(entries: seq<Entry<T>>, rest: seq<Entry<T>>, specOf: T -> Spec, external: bool)
    requires WellKeyed(entries, specOf) && entries != [] && rest == Drop(entries[1..], entries[0].key)
    ensures SharedSpecs(Items(rest), specOf, external) == SharedSpecs(Items(entries), specOf, external) - {specOf(entries[0].item)}
    ensures specOf(entries[0].item) in SharedSpecs(Items(entries), specOf, external)
      <==> !specOf(entries[0].item).exclusive && NeedsGateway(specOf(entries[0].item), external)
    ensures ExclusiveItems(Items(entries), specOf)
      == ExclusiveItems(Items(rest), specOf) + (if specOf(entries[0].item).exclusive then 1 else 0)
  {
    var spec := specOf(entries[0].item);
    HeadGroup(entries, specOf);
    assert Items(entries)[0] == entries[0].item;
    NotShared(Items(entries), specOf, external, spec);
    if spec.exclusive {
      assert Items(entries)[1..] == Items(rest);
      SharedSpecsCons(Items(entries), specOf, external);
    } else {
      assert Drop(entries, entries[0].key) == rest;
      DropSpecs(entries, spec, specOf, external);
      DropExclusives(entries, spec, specOf);
    }
  }

  lemma {:induction false} NotShared<T>(items: seq<T>, specOf: T -> Spec, external: bool, spec: Spec)
    ensures spec.exclusive || !NeedsGateway(spec, external) ==> spec !in SharedSpecs(items, specOf, external)
  {
  }

  /** The first group of the arrangement launches at most one gateway. */
  lemma {:induction false} GroupLaunches<T>(entries: seq<Entry<T>>, specOf: T -> Spec, external: bool, current: Option<Spec>)
    requires WellKeyed(entries, specOf) && entries != []
    requires Running(current) !! SharedSpecs(Items(entries), specOf, external)
    ensures var spec, rest := specOf(entries[0].item), Drop(entries[1..], entries[0].key);
      Launches(Arranged(entries), specOf, external, current)
      == (if NeedsGateway(spec, external) then 1 else 0)
        + Launches(Arranged(rest), specOf, external, NextSpec(spec, external, current))
  {
    var key, rest := entries[0].key, Arranged(Drop(entries[1..], entries[0].key));
    HeadGroup(entries, specOf);
    assert Items(entries)[0] == entries[0].item;
    if key.Shared? {
      PickHasSpec(entries, key.spec, specOf);
    }
    RunGroup(entries[0].item, Pick(entries, key)[1..], rest, specOf, external, current);
    assert Arranged(entries) == [entries[0].item] + Pick(entries, key)[1..] + rest;
  }

  lemma {:induction false} RunGroup<T>(item: T, block: seq<T>, rest: seq<T>, specOf: T -> Spec, external: bool, current: Option<Spec>)
    requires if specOf(item).exclusive then block == [] else forall x :: x in block ==> specOf(x) == specOf(item)
    requires NeedsGateway(specOf(item), external) ==> current != Some(specOf(item)) || specOf(item).exclusive
    ensures Launches([item] + block + rest, specOf, external, current)
      == (if NeedsGateway(specOf(item), external) then 1 else 0)
        + Launches(rest, specOf, external, NextSpec(specOf(item), external, current))
  {
    assert ([item] + block + rest)[1..] == block + rest;
    if specOf(item).exclusive {
      assert block + rest == rest;
    } else {
      BlockRuns(block, rest, specOf, specOf(item), external, NextSpec(specOf(item), external, current));
    }
  }

  lemma {:induction false} HeadCost(all: set<Spec>, spec: Spec)
    ensures |all| == |all - {spec}| + (if spec in all then 1 else 0)
  {
    assert spec !in all ==> all - {spec} == all;
  }

  // ---------------------------------------------------------------- optimality

  lemma {:induction false} RemoveAt<T>(b: seq<T>, j: nat)
    requires j < |b|
    ensures multiset(b) == multiset(b[..j] + b[j + 1..]) + multiset{b[j]}
  {
    assert b == b[..j] + [b[j]] + b[j + 1..];
    assert multiset(b[..j] + b[j + 1..]) == multiset(b[..j]) + multiset(b[j + 1..]);
  }

  /** Taking one item out of two orderings of the same items. */
  lemma {:induction false} TakeOut<T>(a: seq<T>, b: seq<T>) returns (j: nat)
    requires multiset(a) == multiset(b) && a != []
    ensures j < |b| && b[j] == a[0] && multiset(a[1..]) == multiset(b[..j] + b[j + 1..])
  {
    assert a[0] in multiset(b);
    j :| 0 <= j < |b| && b[j] == a[0];
    RemoveAt(b, j);
    RemoveAt(a, 0);
    assert a[..0] + a[0 + 1..] == a[1..];
    Cancel(multiset(a[1..]), multiset(b[..j] + b[j + 1..]), multiset{a[0]});
  }

  lemma {:induction false} Cancel<T>(x: multiset<T>, y: multiset<T>, z: multiset<T>)
    requires x + z == y + z
    ensures x == y
  {
    assert x == (x + z) - z && y == (y + z) - z;
  }

  /** Both counts depend on which items there are, not on their order. */
  lemma {:induction false} CountsPermute<T>(a: seq<T>, b: seq<T>, specOf: T -> Spec, external: bool)
    requires multiset(a) == multiset(b)
    ensures ExclusiveItems(a, specOf) == ExclusiveItems(b, specOf)
    ensures SharedSpecs(a, specOf, external) == SharedSpecs(b, specOf, external)
    decreases |a|
  {
    if a == [] {
      assert |b| == |multiset(b)| == 0;
    } else {
      var j := TakeOut(a, b);
      CountsPermute(a[1..], b[..j] + b[j + 1..], specOf, external);
      ExclusiveWithout(b, j, specOf);
      SharedSpecsCons(a, specOf, external);
      SharedWithout(b, j, specOf, external);
    }
  }

  lemma {:induction false} ExclusiveWithout<T>(b: seq<T>, j: nat, specOf: T -> Spec)
    requires j < |b|
    ensures ExclusiveItems(b, specOf) == ExclusiveItems(b[..j] + b[j + 1..], specOf) + (if specOf(b[j]).exclusive then 1 else 0)
  {
    ExclusiveConcat(b[..j], b[j..], specOf);
    ExclusiveConcat(b[..j], b[j + 1..], specOf);
    assert b == b[..j] + b[j..] && b[j..][1..] == b[j + 1..];
  }

  lemma {:induction false} SharedWithout<T>(b: seq<T>, j: nat, specOf: T -> Spec, external: bool)
    requires j < |b|
    ensures SharedSpecs(b, specOf, external) == SharedSpecs(b[..j] + b[j + 1..], specOf, external)
      + (if !specOf(b[j]).exclusive && NeedsGateway(specOf(b[j]), external) then {specOf(b[j])} else {})
  {
    var others := b[..j] + b[j + 1..];
    forall s | s in SharedSpecs(b, specOf, external)
      ensures s == specOf(b[j]) || s in SharedSpecs(others, specOf, external)
    {
      var i :| 0 <= i < |b| && !specOf(b[i]).exclusive && NeedsGateway(specOf(b[i]), external) && specOf(b[i]) == s;
      assert i == j || others[if i < j then i else i - 1] == b[i];
    }
    assert forall i :: 0 <= i < |others| ==> others[i] == b[if i < j then i else i + 1];
  }

  lemma {:induction false} ExclusiveConcat<T>(a: seq<T>, b: seq<T>, specOf: T -> Spec)
    ensures ExclusiveItems(a + b, specOf) == ExclusiveItems(a, specOf) + ExclusiveItems(b, specOf)
    decreases |a|
  {
    if a == [] {
      assert a + b == b;
    } else {
      assert (a + b)[1..] == a[1..] + b;
      ExclusiveConcat(a[1..], b, specOf);
    }
  }

  /** Running a suite in the grouped order launches one gateway for each distinct managed shared spec
      and one for each exclusive item, and no ordering of the same items launches fewer. */
  lemma {:induction false} GroupedIsOptimal<T>(items: seq<T>, specOf: T -> Spec, external: bool, other: seq<T>)
    requires multiset(other) == multiset(items)
    ensures RunItems(NewPool(external), Grouped(items, specOf), specOf).starts
      == |SharedSpecs(items, specOf, external)| + ExclusiveItems(items, specOf)
    ensures RunItems(NewPool(external), Grouped(items, specOf), specOf).starts
      <= RunItems(NewPool(external), other, specOf).starts
  {
    KeyedWell(items, specOf);
    RunLaunches(NewPool(external), Grouped(items, specOf), specOf);
    RunLaunches(NewPool(external), other, specOf);
    ArrangedLaunches(Keyed(items, specOf), specOf, external, None);
    LaunchesAtLeast(other, specOf, external, None);
    CountsPermute(items, other, specOf, external);
    assert SharedSpecs(other, specOf, external) - {} == SharedSpecs(other, specOf, external);
  }
}
