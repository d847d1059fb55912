/** The in-memory cache store: LRU order, expiry, and the tag index.

    `InMemoryCacheStore` updates its dictionary, its recency order and its tag sets in place; its
    contracts say what happens to the entries, and its invariant what the tag index is.  Over any
    sequence of operations the store is then compared with an unbounded timed map. */
module CacheStore {
  import opened Wrappers

  type Key = string
  type Tag = string

  datatype Entry = Entry(expiresAt: real, value: string, tags: seq<Tag>)

  /** The ordered dictionary: `order` lists the keys, least recently used first. */
  datatype Lru = Lru(items: map<Key, Entry>, order: seq<Key>)

  // ---------------------------------------------------------------------------------------------
  // Orders

  lemma {:induction false} WithoutIsDistinct(order: seq<Key>, key: Key)
    requires NoDuplicates(order)
    ensures NoDuplicates(Without(order, key))
    ensures key in order ==> |Without(order, key)| == |order| - 1
    ensures key !in order ==> Without(order, key) == order
  {
    if order == [] {
    } else {
      WithoutIsDistinct(order[1..], key);
      assert order[0] !in order[1..];
      assert order == [order[0]] + order[1..];
    }
  }

  /** The keys used more recently than `key`. */
  function After(order: seq<Key>, key: Key): set<Key> {
    if order == [] then {}
    else if order[0] == key then (set k | k in order[1..])
    else After(order[1..], key)
  }

  lemma {:induction false} AfterWithout(order: seq<Key>, key: Key, other: Key)
    requires key != other
    ensures After(Without(order, other), key) <= After(order, key)
  {
    if order == [] {
    } else {
      AfterWithout(order[1..], key, other);
      if order[0] == other {
        assert Without(order, other) == Without(order[1..], other);
      } else {
        var rest := Without(order[1..], other);
        assert Without(order, other) == [order[0]] + rest;
        assert ([order[0]] + rest)[1..] == rest;
      }
    }
  }

  lemma {:induction false} AfterAppend(order: seq<Key>, key: Key, other: Key)
    ensures After(order + [other], key) <= After(order, key) + {other}
    ensures key !in order ==> After(order + [key], key) == {}
  {
    if order == [] {
      assert [other][1..] == [];
      assert [key][1..] == [];
    } else {
      AfterAppend(order[1..], key, other);
      assert (order + [other])[1..] == order[1..] + [other];
      assert (order + [key])[1..] == order[1..] + [key];
    }
  }

  // ---------------------------------------------------------------------------------------------
  // The operations on entries

  function Dropped(c: Lru, key: Key): Lru {
    Lru(c.items - {key}, Without(c.order, key))
  }

  function Keep(order: seq<Key>, gone: set<Key>): seq<Key> {
    if order == [] then []
    else if order[0] in gone then Keep(order[1..], gone)
    else [order[0]] + Keep(order[1..], gone)
  }

  function DroppedAll(c: Lru, keys: set<Key>): Lru
  {
    Lru(c.items - keys, Keep(c.order, keys))
  }

  function Trimmed(c: Lru, max: nat): Lru
    decreases |c.order|
  {
    if |c.order| <= max then c else Trimmed(Dropped(c, c.order[0]), max)
  }

  predicate Live(c: Lru, key: Key, now: real) {
    key in c.items && c.items[key].expiresAt > now
  }

  function AfterGet(c: Lru, key: Key, now: real): Lru {
    if key !in c.items then c
    else if !Live(c, key, now) then Dropped(c, key)
    else c.(order := Without(c.order, key) + [key])
  }

  function AfterSet(c: Lru, max: nat, key: Key, entry: Entry): Lru {
    Trimmed(Lru(c.items[key := entry], Without(c.order, key) + [key]), max)
  }

  predicate Carries(entry: Entry, tags: seq<Tag>) {
    exists t :: t in entry.tags && t in tags
  }

  function Carriers(c: Lru, tags: seq<Tag>): set<Key> {
    set k | k in c.items && Carries(c.items[k], tags)
  }

  ghost predicate Ordered(c: Lru) {
    NoDuplicates(c.order) && forall k :: k in c.order <==> k in c.items
  }

  lemma DroppedIsOrdered(c: Lru, key: Key)
    requires Ordered(c)
    ensures Ordered(Dropped(c, key))
    ensures |Dropped(c, key).order| == |c.order| - (if key in c.items then 1 else 0)
  {
    WithoutIsDistinct(c.order, key);
  }

  lemma MovedToEndIsOrdered(c: Lru, key: Key, entry: Entry)
    requires Ordered(c)
    ensures Ordered(Lru(c.items[key := entry], Without(c.order, key) + [key]))
    ensures |Without(c.order, key) + [key]| == |c.order| + (if key in c.items then 0 else 1)
  {
    WithoutIsDistinct(c.order, key);
  }

  // ---------------------------------------------------------------------------------------------
  // The store

  type TagIndex = map<Tag, set<Key>>

  ghost predicate Listed(index: TagIndex, t: Tag, k: Key) {
    t in index && k in index[t]
  }

  ghost predicate NoEmptySets(index: TagIndex) {
    forall t :: t in index ==> index[t] != {}
  }

  /** A key is in the set of a tag exactly when it is stored with that tag. */
  ghost predicate Indexes(index: TagIndex, items: map<Key, Entry>) {
    && NoEmptySets(index)
    && forall t, k :: Listed(index, t, k) <==> k in items && t in items[k].tags
  }

  /** Discards a member of one tag set, and the set with its last member. */
  function Untagged(index: TagIndex, t: Tag, key: Key): (r: TagIndex)
    ensures NoEmptySets(index) ==> NoEmptySets(r)
    ensures forall u, k :: Listed(r, u, k) <==> Listed(index, u, k) && !(k == key && u == t)
  {
    if t !in index then index
    else
      var members := index[t] - {key};
      assert forall k :: k in members <==> k in index[t] && k != key;
      if members == {} then index - {t} else index[t := members]
  }

  function Tagged(index: TagIndex, t: Tag, key: Key): (r: TagIndex)
    ensures NoEmptySets(index) ==> NoEmptySets(r)
    ensures forall u, k :: Listed(r, u, k) <==> Listed(index, u, k) || (k == key && u == t)
  {
    index[t := (if t in index then index[t] else {}) + {key}]
  }

  function UntaggedAll(index: TagIndex, tags: seq<Tag>, key: Key): TagIndex {
    if tags == [] then index
    else Untagged(UntaggedAll(index, tags[..|tags| - 1], key), tags[|tags| - 1], key)
  }

  function TaggedAll(index: TagIndex, tags: seq<Tag>, key: Key): TagIndex {
    if tags == [] then index
    else Tagged(TaggedAll(index, tags[..|tags| - 1], key), tags[|tags| - 1], key)
  }

  lemma {:induction false} UntaggedAllLists(index: TagIndex, tags: seq<Tag>, key: Key)
    requires NoEmptySets(index)
    ensures NoEmptySets(UntaggedAll(index, tags, key))
    ensures forall t, k :: Listed(UntaggedAll(index, tags, key), t, k) <==> Listed(index, t, k) && !(k == key && t in tags)
  {
    if tags == [] {
    } else {
      UntaggedAllLists(index, tags[..|tags| - 1], key);
      assert tags == tags[..|tags| - 1] + [tags[|tags| - 1]];
    }
  }

  lemma {:induction false} TaggedAllLists(index: TagIndex, tags: seq<Tag>, key: Key)
    requires NoEmptySets(index)
    ensures NoEmptySets(TaggedAll(index, tags, key))
    ensures forall t, k :: Listed(TaggedAll(index, tags, key), t, k) <==> Listed(index, t, k) || (k == key && t in tags)
  {
    if tags == [] {
    } else {
      TaggedAllLists(index, tags[..|tags| - 1], key);
      assert tags == tags[..|tags| - 1] + [tags[|tags| - 1]];
    }
  }

  /** Removing an entry's tags leaves the index of the other entries. */
  lemma RemovalKeepsIndex(index: TagIndex, items: map<Key, Entry>, key: Key)
    requires Indexes(index, items) && key in items
    ensures Indexes(UntaggedAll(index, items[key].tags, key), items - {key})
  {
    UntaggedAllLists(index, items[key].tags, key);
    var index', items' := UntaggedAll(index, items[key].tags, key), items - {key};
    forall t, k ensures Listed(index', t, k) <==> k in items' && t in items'[k].tags {
      assert Listed(index, t, k) <==> k in items && t in items[k].tags;
    }
  }

  /** Adding the tags of a new entry completes the index. */
  lemma InsertionKeepsIndex(index: TagIndex, items: map<Key, Entry>, key: Key, entry: Entry)
    requires Indexes(index, items) && key !in items
    ensures Indexes(TaggedAll(index, entry.tags, key), items[key := entry])
  {
    TaggedAllLists(index, entry.tags, key);
    var index', items' := TaggedAll(index, entry.tags, key), items[key := entry];
    forall t, k ensures Listed(index', t, k) <==> k in items' && t in items'[k].tags {
      assert Listed(index, t, k) <==> k in items && t in items[k].tags;
    }
  }

  lemma {:induction false} KeepNone(order: seq<Key>)
    ensures Keep(order, {}) == order
  {
    if order == [] {
    } else {
      KeepNone(order[1..]);
    }
  }

  lemma {:induction false} KeepOneLess(order: seq<Key>, gone: set<Key>, key: Key)
    ensures Without(Keep(order, gone), key) == Keep(order, gone + {key})
  {
    if order == [] {
    } else {
      KeepOneLess(order[1..], gone, key);
      if order[0] !in gone {
        var rest := Keep(order[1..], gone);
        assert Keep(order, gone) == [order[0]] + rest;
        assert ([order[0]] + rest)[1..] == rest;
      }
    }
  }

  lemma DropThenPut(items: map<Key, Entry>, key: Key, entry: Entry)
    ensures (items - {key})[key := entry] == items[key := entry]
  {
  }

  lemma NoneDropped(c: Lru)
    ensures DroppedAll(c, {}) == c
  {
    KeepNone(c.order);
    assert c.items - {} == c.items;
  }

  lemma OneMoreDropped(c: Lru, gone: set<Key>, key: Key)
    ensures Dropped(DroppedAll(c, gone), key) == DroppedAll(c, gone + {key})
  {
    KeepOneLess(c.order, gone, key);
    assert c.items - gone - {key} == c.items - (gone + {key});
  }

  class InMemoryCacheStore {
    const max: nat
    var items: map<Key, Entry>
    var order: seq<Key>
    var index: TagIndex

    function Contents(): Lru
      reads this
    {
      Lru(items, order)
    }

    ghost predicate Valid()
      reads this
    {
      Ordered(Contents()) && |order| <= max && Indexes(index, items)
    }

    constructor (max: nat)
      ensures Valid() && this.max == max && Contents() == Lru(map[], [])
    {
      this.max, items, order, index := max, map[], [], map[];
    }

    method RemoveTags(key: Key, tags: seq<Tag>)
      modifies this`index
      ensures index == UntaggedAll(old(index), tags, key)
    {
      for i := 0 to |tags|
        invariant index == UntaggedAll(old(index), tags[..i], key)
      {
        assert tags[..i + 1][..i] == tags[..i];
        if tags[i] in index {
          var members := index[tags[i]] - {key};
          index := if members == {} then index - {tags[i]} else index[tags[i] := members];
        }
      }
      assert tags[..|tags|] == tags;
    }

    method AddTags(key: Key, tags: seq<Tag>)
      modifies this`index
      ensures index == TaggedAll(old(index), tags, key)
    {
      for i := 0 to |tags|
        invariant index == TaggedAll(old(index), tags[..i], key)
      {
        assert tags[..i + 1][..i] == tags[..i];
        index := index[tags[i] := (if tags[i] in index then index[tags[i]] else {}) + {key}];
      }
      assert tags[..|tags|] == tags;
    }

    /** Pops an entry and its tags. */
    method Drop(key: Key)
      requires Ordered(Contents()) && Indexes(index, items)
      modifies this
      ensures Contents() == Dropped(old(Contents()), key)
      ensures Ordered(Contents()) && Indexes(index, items)
      ensures |order| == |old(order)| - (if key in old(items) then 1 else 0)
    {
      DroppedIsOrdered(Contents(), key);
      if key in items {
        RemovalKeepsIndex(index, items, key);
        RemoveTags(key, items[key].tags);
        items, order := items - {key}, Without(order, key);
      } else {
        assert items - {key} == items;
        WithoutIsDistinct(order, key);
      }
    }

    method Get(key: Key, now: real) returns (value: Option<string>)
      requires Valid()
      modifies this
      ensures Valid() && Contents() == AfterGet(old(Contents()), key, now)
      ensures value == if old(Live(Contents(), key, now)) then Some(old(items)[key].value) else None
      ensures value.Some? <==> key in old(items) && old(items)[key].expiresAt > now
      ensures value.Some? ==> items == old(items) && order != [] && order[|order| - 1] == key
      ensures value.None? ==> key !in items
    {
      if key !in items {
        return None;
      }
      if items[key].expiresAt <= now {
        Drop(key);
        return None;
      }
      MovedToEndIsOrdered(Contents(), key, items[key]);
      assert items[key := items[key]] == items;
      order := Without(order, key) + [key];
      return Some(items[key].value);
    }

    method Insert(key: Key, entry: Entry)
      requires key !in items && Indexes(index, items)
      modifies this
      ensures items == old(items)[key := entry] && order == old(order) + [key]
      ensures Indexes(index, items)
    {
      InsertionKeepsIndex(index, items, key, entry);
      items, order := items[key := entry], order + [key];
      AddTags(key, entry.tags);
    }

    /** Replaces any prior entry, at the recent end of the order. */
    method Put(key: Key, entry: Entry)
      requires Ordered(Contents()) && Indexes(index, items)
      modifies this
      ensures Ordered(Contents()) && Indexes(index, items)
      ensures Contents() == Lru(old(items)[key := entry], Without(old(order), key) + [key])
    {
      MovedToEndIsOrdered(Contents(), key, entry);
      DropThenPut(items, key, entry);
      Drop(key);
      Insert(key, entry);
    }

    method EvictOverflow()
      requires Ordered(Contents()) && Indexes(index, items)
      modifies this
      ensures Valid() && Contents() == Trimmed(old(Contents()), max)
    {
      while |order| > max
        invariant Ordered(Contents()) && Indexes(index, items)
        invariant Trimmed(Contents(), max) == Trimmed(old(Contents()), max)
        decreases |order|
      {
        assert order[0] in items;
        Drop(order[0]);
      }
    }

    method Set(key: Key, value: string, ttl: real, tags: seq<Tag>, now: real)
      requires Valid()
      modifies this
      ensures Valid() && Contents() == AfterSet(old(Contents()), max, key, Entry(now + ttl, value, tags))
    {
      Put(key, Entry(now + ttl, value, tags));
      EvictOverflow();
    }

    method Delete(key: Key)
      requires Valid()
      modifies this
      ensures Valid() && Contents() == Dropped(old(Contents()), key)
    {
      Drop(key);
    }

    /** The union of the sets of the tags. */
    method Members(tags: seq<Tag>) returns (keys: set<Key>)
      ensures forall k :: k in keys <==> exists t :: t in tags && Listed(index, t, k)
    {
      keys := {};
      for i := 0 to |tags|
        invariant forall k :: k in keys ==> exists t :: t in tags[..i] && Listed(index, t, k)
        invariant forall j, k :: 0 <= j < i && Listed(index, tags[j], k) ==> k in keys
      {
        assert tags[..i + 1] == tags[..i] + [tags[i]];
        if tags[i] in index {
          assert forall k :: k in index[tags[i]] ==> Listed(index, tags[i], k);
          keys := keys + index[tags[i]];
        }
      }
      assert tags[..|tags|] == tags;
    }

    method DropAll(keys: set<Key>)
      requires Valid()
      modifies this
      ensures Valid() && Contents() == DroppedAll(old(Contents()), keys)
    {
      ghost var before := Contents();
      ghost var gone: set<Key> := {};
      var todo := keys;
      NoneDropped(before);
      while todo != {}
        invariant gone + todo == keys
        invariant Valid() && Contents() == DroppedAll(before, gone)
        decreases todo
      {
        var key :| key in todo;
        OneMoreDropped(before, gone, key);
        Drop(key);
        todo, gone := todo - {key}, gone + {key};
      }
      assert gone == keys;
    }

    /** Removes exactly the entries that carry one of the tags, and returns their number. */
    method InvalidateTags(tags: seq<Tag>) returns (count: nat)
      requires Valid()
      modifies this
      ensures Valid() && Contents() == DroppedAll(old(Contents()), Carriers(old(Contents()), tags))
      ensures count == |Carriers(old(Contents()), tags)|
    {
      var keys := Members(tags);
      ghost var before := Contents();
      assert keys == Carriers(before, tags) by {
        forall k ensures k in keys <==> k in Carriers(before, tags) {
          assert forall t :: Listed(index, t, k) <==> k in items && t in items[k].tags;
        }
      }
      count := |keys|;
      DropAll(keys);
    }
  }

  // ---------------------------------------------------------------------------------------------
  // Any sequence of operations

  datatype Op =
    | GetOp(key: Key, now: real)
    | SetOp(key: Key, entry: Entry)
    | DeleteOp(key: Key)
    | InvalidateOp(tags: seq<Tag>)

  function Next(c: Lru, max: nat, op: Op): Lru {
    match op
    case GetOp(key, now) => AfterGet(c, key, now)
    case SetOp(key, entry) => AfterSet(c, max, key, entry)
    case DeleteOp(key) => Dropped(c, key)
    case InvalidateOp(tags) => DroppedAll(c, Carriers(c, tags))
  }

  function Run(c: Lru, max: nat, ops: seq<Op>): Lru
    decreases |ops|
  {
    if ops == [] then c else Run(Next(c, max, ops[0]), max, ops[1..])
  }

  /** An unbounded map with the same entries: reading never changes it, and it never evicts. */
  function IdealNext(m: map<Key, Entry>, op: Op): map<Key, Entry> {
    match op
    case GetOp(_, _) => m
    case SetOp(key, entry) => m[key := entry]
    case DeleteOp(key) => m - {key}
    case InvalidateOp(tags) => map k | k in m && !Carries(m[k], tags) :: m[k]
  }

  function Ideal(m: map<Key, Entry>, ops: seq<Op>): map<Key, Entry>
    decreases |ops|
  {
    if ops == [] then m else Ideal(IdealNext(m, ops[0]), ops[1..])
  }

  ghost predicate Sound(c: Lru, max: nat) {
    Ordered(c) && |c.order| <= max
  }

  predicate Within(c: Lru, m: map<Key, Entry>) {
    forall k :: k in c.items ==> k in m && c.items[k] == m[k]
  }

  lemma {:induction false} TrimmedIsSound(c: Lru, max: nat)
    requires Ordered(c)
    ensures Sound(Trimmed(c, max), max)
    ensures forall k :: k in Trimmed(c, max).items ==> k in c.items && Trimmed(c, max).items[k] == c.items[k]
    decreases |c.order|
  {
    if |c.order| > max {
      assert c.order[0] in c.items;
      DroppedIsOrdered(c, c.order[0]);
      TrimmedIsSound(Dropped(c, c.order[0]), max);
    }
  }

  lemma {:induction false} KeepIsDistinct(order: seq<Key>, gone: set<Key>)
    requires NoDuplicates(order)
    ensures NoDuplicates(Keep(order, gone)) && |Keep(order, gone)| <= |order|
    ensures forall k :: k in Keep(order, gone) <==> k in order && k !in gone
  {
    if order == [] {
    } else {
      KeepIsDistinct(order[1..], gone);
      assert order[0] !in order[1..];
      assert order == [order[0]] + order[1..];
    }
  }

  lemma NextIsSound(c: Lru, max: nat, op: Op, m: map<Key, Entry>)
    requires Sound(c, max) && Within(c, m)
    ensures Sound(Next(c, max, op), max) && Within(Next(c, max, op), IdealNext(m, op))
  {
    match op {
      case GetOp(key, now) =>
        if key in c.items {
          DroppedIsOrdered(c, key);
          MovedToEndIsOrdered(c, key, c.items[key]);
        }
      case SetOp(key, entry) =>
        MovedToEndIsOrdered(c, key, entry);
        TrimmedIsSound(Lru(c.items[key := entry], Without(c.order, key) + [key]), max);
      case DeleteOp(key) => DroppedIsOrdered(c, key);
      case InvalidateOp(tags) => KeepIsDistinct(c.order, Carriers(c, tags));
    }
  }

  lemma {:induction false} RunIsSound(c: Lru, max: nat, ops: seq<Op>, m: map<Key, Entry>)
    requires Sound(c, max) && Within(c, m)
    ensures Sound(Run(c, max, ops), max) && Within(Run(c, max, ops), Ideal(m, ops))
    decreases |ops|
  {
    if ops == [] {
    } else {
      NextIsSound(c, max, ops[0], m);
      RunIsSound(Next(c, max, ops[0]), max, ops[1..], IdealNext(m, ops[0]));
    }
  }

  const EMPTY := Lru(map[], [])

  /** A hit always returns the unexpired value of the ideal map, after any operations. */
  lemma {:induction false} HitsAgreeWithTheIdealMap(max: nat, ops: seq<Op>, key: Key, now: real)
    requires Live(Run(EMPTY, max, ops), key, now)
    ensures var m := Ideal(map[], ops);
            && key in m && m[key].expiresAt > now
            && m[key] == Run(EMPTY, max, ops).items[key]
  {
    RunIsSound(EMPTY, max, ops, map[]);
  }

  // ---------------------------------------------------------------------------------------------
  // What the LRU order retains

  function TouchedBy(c: Lru, op: Op): set<Key> {
    match op
    case SetOp(key, _) => {key}
    case GetOp(key, now) => if Live(c, key, now) then {key} else {}
    case _ => {}
  }

  /** The keys that the operations set or hit. */
  function Touched(c: Lru, max: nat, ops: seq<Op>): set<Key>
    decreases |ops|
  {
    if ops == [] then {}
    else TouchedBy(c, ops[0]) + Touched(Next(c, max, ops[0]), max, ops[1..])
  }

  /** The operation is not about `key`, and does not invalidate it. */
  predicate Spares(op: Op, key: Key, entry: Entry) {
    match op
    case GetOp(k, _) => k != key
    case SetOp(k, _) => k != key
    case DeleteOp(k) => k != key
    case InvalidateOp(tags) => !Carries(entry, tags)
  }

  ghost predicate Holds(c: Lru, key: Key, entry: Entry) {
    key in c.items && c.items[key] == entry
  }

  lemma {:induction false} DistinctSize(order: seq<Key>)
    requires NoDuplicates(order)
    ensures |set k | k in order| == |order|
  {
    if order != [] {
      DistinctSize(order[1..]);
      assert (set k | k in order) == {order[0]} + (set k | k in order[1..]);
      assert order[0] !in order[1..];
    } else {
      assert (set k | k in order) == {};
    }
  }

  /** The oldest key of an overfull order has at least `max` keys after it. */
  lemma OldestHasMaxAfter(order: seq<Key>, max: nat, key: Key, others: set<Key>)
    requires NoDuplicates(order) && |order| > max && order[0] == key && After(order, key) <= others
    ensures |others| >= max
  {
    DistinctSize(order[1..]);
    SubsetSize(After(order, key), others);
  }

  lemma {:induction false} KeepIsSubset(order: seq<Key>, gone: set<Key>)
    ensures forall k :: k in Keep(order, gone) ==> k in order
  {
    if order == [] {
    } else {
      KeepIsSubset(order[1..], gone);
    }
  }

  lemma {:induction false} AfterKeep(order: seq<Key>, gone: set<Key>, key: Key)
    requires key !in gone
    ensures After(Keep(order, gone), key) <= After(order, key)
    ensures key in order ==> key in Keep(order, gone)
  {
    if order == [] {
    } else {
      AfterKeep(order[1..], gone, key);
      KeepIsSubset(order[1..], gone);
      if order[0] !in gone {
        var rest := Keep(order[1..], gone);
        assert Keep(order, gone) == [order[0]] + rest;
        assert ([order[0]] + rest)[1..] == rest;
      }
    }
  }

  lemma {:induction false} TrimmingRetains(c: Lru, max: nat, key: Key, entry: Entry, others: set<Key>)
    requires Ordered(c) && Holds(c, key, entry)
    requires After(c.order, key) <= others && |others| < max
    ensures Holds(Trimmed(c, max), key, entry) && After(Trimmed(c, max).order, key) <= others
    decreases |c.order|
  {
    if |c.order| > max {
      var oldest := c.order[0];
      if oldest == key {
        OldestHasMaxAfter(c.order, max, key, others);
      }
      assert oldest in c.items;
      DroppedIsOrdered(c, oldest);
      AfterWithout(c.order, key, oldest);
      TrimmingRetains(Dropped(c, oldest), max, key, entry, others);
    }
  }

  lemma StepRetains(c: Lru, max: nat, op: Op, key: Key, entry: Entry, others: set<Key>)
    requires Sound(c, max) && Holds(c, key, entry) && Spares(op, key, entry)
    requires After(c.order, key) <= others && TouchedBy(c, op) <= others && |others| < max
    ensures Holds(Next(c, max, op), key, entry) && After(Next(c, max, op).order, key) <= others
  {
    match op {
      case GetOp(k, now) =>
        AfterWithout(c.order, key, k);
        AfterAppend(Without(c.order, k), key, k);
      case SetOp(k, e) =>
        AfterWithout(c.order, key, k);
        AfterAppend(Without(c.order, k), key, k);
        MovedToEndIsOrdered(c, k, e);
        TrimmingRetains(Lru(c.items[k := e], Without(c.order, k) + [k]), max, key, entry, others);
      case DeleteOp(k) => AfterWithout(c.order, key, k);
      case InvalidateOp(tags) => AfterKeep(c.order, Carriers(c, tags), key);
    }
  }

  lemma {:induction false} RunRetains(c: Lru, max: nat, ops: seq<Op>, key: Key, entry: Entry, others: set<Key>)
    requires Sound(c, max) && Holds(c, key, entry)
    requires forall i :: 0 <= i < |ops| ==> Spares(ops[i], key, entry)
    requires After(c.order, key) + Touched(c, max, ops) <= others && |others| < max
    ensures Holds(Run(c, max, ops), key, entry)
    decreases |ops|
  {
    if ops == [] {
    } else {
      assert Spares(ops[0], key, entry);
      StepRetains(c, max, ops[0], key, entry, others);
      NextIsSound(c, max, ops[0], c.items);
      RunRetains(Next(c, max, ops[0]), max, ops[1..], key, entry, others);
    }
  }

  lemma TouchMakesNewest(c: Lru, max: nat, op: Op, key: Key)
    requires Sound(c, max) && max > 0 && TouchedBy(c, op) == {key}
    ensures Sound(Next(c, max, op), max) && key in Next(c, max, op).items
    ensures After(Next(c, max, op).order, key) == {}
  {
    NextIsSound(c, max, op, c.items);
    AfterAppend(Without(c.order, key), key, key);
    if op.SetOp? {
      assert op.key == key;
      var moved := Lru(c.items[key := op.entry], Without(c.order, key) + [key]);
      MovedToEndIsOrdered(c, key, op.entry);
      TrimmingRetains(moved, max, key, op.entry, {});
    }
  }

  /** An entry survives, and is a hit until it expires, as long as fewer than `max` distinct keys
      are set or hit after its own last touch and nothing deletes or invalidates it. */
  lemma {:induction false} RecentKeysAreHits(max: nat, before: seq<Op>, touch: Op, after: seq<Op>, key: Key, now: real)
    requires var c := Run(EMPTY, max, before);
             var c' := Next(c, max, touch);
             && TouchedBy(c, touch) == {key}
             && |Touched(c', max, after)| < max
             && key in c'.items && c'.items[key].expiresAt > now
             && forall i :: 0 <= i < |after| ==> Spares(after[i], key, c'.items[key])
    ensures Live(Run(Next(Run(EMPTY, max, before), max, touch), max, after), key, now)
  {
    var c := Run(EMPTY, max, before);
    RunIsSound(EMPTY, max, before, map[]);
    TouchMakesNewest(c, max, touch, key);
    var c' := Next(c, max, touch);
    RunRetains(c', max, after, key, c'.items[key], Touched(c', max, after));
  }

  lemma {:induction false} IdealAppend(m: map<Key, Entry>, ops: seq<Op>, op: Op)
    ensures Ideal(m, ops + [op]) == IdealNext(Ideal(m, ops), op)
    decreases |ops|
  {
    if ops != [] {
      IdealAppend(IdealNext(m, ops[0]), ops[1..], op);
      assert (ops + [op])[1..] == ops[1..] + [op];
    } else {
      assert [op][1..] == [];
    }
  }

  /** The premise of `RecentKeysAreHits` about the touch itself always holds: a touched key is
      stored, with the entry just set or just read. */
  lemma {:induction false} TouchedKeysAreStored(max: nat, before: seq<Op>, touch: Op, key: Key)
    requires max > 0 && TouchedBy(Run(EMPTY, max, before), touch) == {key}
    ensures var c := Run(EMPTY, max, before);
            var m := Ideal(map[], before + [touch]);
            && key in Next(c, max, touch).items && key in m
            && Next(c, max, touch).items[key] == m[key]
  {
    RunIsSound(EMPTY, max, before, map[]);
    var c := Run(EMPTY, max, before);
    TouchMakesNewest(c, max, touch, key);
    NextIsSound(c, max, touch, Ideal(map[], before));
    IdealAppend(map[], before, touch);
  }
}
