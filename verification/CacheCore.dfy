/** The in-memory cache of the store (internal/memory/memory.go, helpers.go,
    read.go): the entries by id, the index by context, and copy-on-write updates
    of published entries. */
module CacheCore {

  datatype Data = Data(content: string, context: string, layer: string, updatedAt: int, accessedAt: int, accesses: nat, targeted: nat)

  /** A cache entry. Readers hold references to it and read it without a lock. */
  class CachedMemory {
    const id: string
    var data: Data

    constructor (id: string, data: Data)
      ensures this.id == id && this.data == data
    {
      this.id, this.data := id, data;
    }

    method CloneForUpdate() returns (clone: CachedMemory)
      ensures fresh(clone) && clone.id == id && clone.data == data
    {
      clone := new CachedMemory(id, data);
    }
  }

  // ---------------------------------------------------------- the index alone

  /** `index` is the exact inverse of the entries' contexts, holds the same objects,
      and keeps no empty bucket; the empty context is not indexed. */
  ghost predicate InverseOf<E>(entries: map<string, E>, contexts: map<string, string>, index: map<string, map<string, E>>) {
    && contexts.Keys == entries.Keys
    && (forall c, id :: c in index && id in index[c] ==> id in entries && contexts[id] == c && index[c][id] == entries[id])
    && (forall id :: id in entries && contexts[id] != "" ==> contexts[id] in index && id in index[contexts[id]])
    && (forall c :: c in index ==> c != "" && index[c] != map[])
  }

  function Unindexed<E>(index: map<string, map<string, E>>, context: string, id: string): map<string, map<string, E>> {
    if context !in index then index
    else if index[context] - {id} == map[] then index - {context}
    else index[context := index[context] - {id}]
  }

  function Indexed<E>(index: map<string, map<string, E>>, context: string, id: string, e: E): map<string, map<string, E>> {
    if context == "" then index
    else index[context := (if context in index then index[context] else map[])[id := e]]
  }

  lemma UnindexKeeps<E>(entries: map<string, E>, contexts: map<string, string>, index: map<string, map<string, E>>, id: string)
    requires InverseOf(entries, contexts, index) && id in entries
    ensures InverseOf(entries - {id}, contexts - {id}, Unindexed(index, contexts[id], id))
  {
    var bucket := if contexts[id] in index then index[contexts[id]] - {id} else map[];
    forall other | other in entries && other != id && contexts[other] == contexts[id] && contexts[other] != ""
      ensures other in bucket
    {
      assert other in index[contexts[other]];
    }
  }

  lemma IndexKeeps<E>(entries: map<string, E>, contexts: map<string, string>, index: map<string, map<string, E>>, id: string, e: E, c: string)
    requires InverseOf(entries, contexts, index) && (id in entries ==> contexts[id] == c)
    ensures InverseOf(entries[id := e], contexts[id := c], Indexed(index, c, id, e))
  {
    if c != "" {
      BucketKeeps(entries, contexts, index, if c in index then index[c] else map[], id, e, c);
    }
  }

  lemma BucketKeeps<E>(entries: map<string, E>, contexts: map<string, string>, index: map<string, map<string, E>>,
                       bucket: map<string, E>, id: string, e: E, c: string)
    requires InverseOf(entries, contexts, index) && (id in entries ==> contexts[id] == c) && c != ""
    requires bucket == if c in index then index[c] else map[]
    ensures InverseOf(entries[id := e], contexts[id := c], index[c := bucket[id := e]])
  {
    var grown, under := index[c := bucket[id := e]], contexts[id := c];
    forall k | k in entries && k != id && contexts[k] != "" ensures contexts[k] in grown && k in grown[contexts[k]] {
      assert k in index[contexts[k]];
    }
    assert id in grown[c];
  }

  /** The index after an entry is set: its old bucket is left when the context changes. */
  function Moved<E>(entries: map<string, E>, contexts: map<string, string>, index: map<string, map<string, E>>, id: string, c: string)
    : map<string, map<string, E>>
    requires id in entries ==> id in contexts
  {
    if id in entries && contexts[id] != c then Unindexed(index, contexts[id], id) else index
  }

  lemma SetKeeps<E>(entries: map<string, E>, contexts: map<string, string>, index: map<string, map<string, E>>, id: string, e: E, c: string)
    requires InverseOf(entries, contexts, index)
    ensures InverseOf(entries[id := e], contexts[id := c], Indexed(Moved(entries, contexts, index, id, c), c, id, e))
  {
    if id in entries && contexts[id] != c {
      UnindexKeeps(entries, contexts, index, id);
      IndexKeeps(entries - {id}, contexts - {id}, Unindexed(index, contexts[id], id), id, e, c);
      assert (entries - {id})[id := e] == entries[id := e] && (contexts - {id})[id := c] == contexts[id := c];
    } else {
      IndexKeeps(entries, contexts, index, id, e, c);
    }
  }

  /** The entries determine the index. */
  lemma IndexDetermined<E>(entries: map<string, E>, contexts: map<string, string>, index: map<string, map<string, E>>,
                           other: map<string, map<string, E>>)
    requires InverseOf(entries, contexts, index) && InverseOf(entries, contexts, other)
    ensures index == other
  {
    forall c
      ensures c in index ==> c in other && index[c] == other[c]
      ensures c in other ==> c in index
    {
      if c in index { SameBucket(entries, contexts, index, other, c); }
      if c in other { SameBucket(entries, contexts, other, index, c); }
    }
  }

  lemma SameBucket<E>(entries: map<string, E>, contexts: map<string, string>, index: map<string, map<string, E>>,
                      other: map<string, map<string, E>>, c: string)
    requires InverseOf(entries, contexts, index) && InverseOf(entries, contexts, other) && c in index
    ensures c in other && index[c] == other[c]
  {
    var id :| id in index[c];
    assert contexts[id] == c;
    forall k
      ensures k in index[c] <==> k in other[c]
      ensures k in index[c] ==> index[c][k] == other[c][k]
    {
      if k in index[c] { assert contexts[k] == c; }
      if k in other[c] { assert contexts[k] == c; }
    }
  }

  // --------------------------------------------------------------- the cache

  /** The cache by value. */
  type Contents = map<string, Data>

  function Edited(contents: Contents, id: string, fn: Data -> Data): Contents {
    if id in contents then contents[id := fn(contents[id])] else contents
  }

  class Cache {
    var memories: map<string, CachedMemory>
    var contextIndex: map<string, map<string, CachedMemory>>

    ghost function Contexts(): map<string, string>
      reads this, memories.Values
    {
      map id | id in memories :: memories[id].data.context
    }

    ghost function Values(): Contents
      reads this, memories.Values
    {
      map id | id in memories :: memories[id].data
    }

    ghost predicate Valid()
      reads this, memories.Values
    {
      && (forall id :: id in memories ==> memories[id].id == id)
      && InverseOf(memories, Contexts(), contextIndex)
    }

    constructor ()
      ensures Valid() && memories == map[]
    {
      memories, contextIndex := map[], map[];
    }

    method Unindex(context: string, id: string)
      modifies this`contextIndex
      ensures contextIndex == Unindexed(old(contextIndex), context, id)
    {
      if context in contextIndex {
        var bucket := contextIndex[context] - {id};
        if bucket == map[] {
          contextIndex := contextIndex - {context};
        } else {
          contextIndex := contextIndex[context := bucket];
        }
      }
    }

    method Index(context: string, m: CachedMemory)
      modifies this`contextIndex
      ensures contextIndex == Indexed(old(contextIndex), context, m.id, m)
    {
      if context != "" {
        if context !in contextIndex {
          contextIndex := contextIndex[context := map[]];
        }
        contextIndex := contextIndex[context := contextIndex[context][m.id := m]];
      }
    }

    /** The cache is rebuilt from the rows of the database. */
    method LoadMemoriesToCache(rows: Contents)
      modifies this
      ensures Valid() && fresh(memories.Values) && Values() == rows
    {
      memories, contextIndex := map[], map[];
      ghost var loaded: Contents := map[];
      var todo := rows.Keys;
      while todo != {}
        invariant todo <= rows.Keys
        invariant Valid() && fresh(memories.Values) && Values() == loaded
        invariant forall id :: id in loaded <==> id in rows && id !in todo
        invariant forall id :: id in loaded ==> loaded[id] == rows[id]
      {
        var id :| id in todo;
        Put(id, rows[id]);
        todo, loaded := todo - {id}, loaded[id := rows[id]];
      }
    }

    /** A row just written, as a new entry. */
    method Put(id: string, data: Data)
      requires Valid()
      modifies this
      ensures Valid() && fresh(memories.Values - old(memories.Values)) && Values() == old(Values())[id := data]
    {
      var m := new CachedMemory(id, data);
      CacheSetLocked(m);
    }

    /** Adds or replaces an entry; published entries are not written to. */
    method CacheSetLocked(m: CachedMemory)
      requires Valid()
      modifies this
      ensures Valid() && memories == old(memories)[m.id := m]
      ensures Values() == old(Values())[m.id := m.data]
    {
      ghost var entries, contexts, index := memories, Contexts(), contextIndex;
      if m.id in memories && memories[m.id].data.context != m.data.context {
        Unindex(memories[m.id].data.context, m.id);
      }
      memories := memories[m.id := m];
      Index(m.data.context, m);
      SetKeeps(entries, contexts, index, m.id, m, m.data.context);
      assert Contexts() == contexts[m.id := m.data.context];
      assert Valid();
      assert Values() == old(Values())[m.id := m.data];
    }

    method CacheDeleteLocked(id: string)
      requires Valid()
      modifies this
      ensures Valid() && memories == old(memories) - {id}
      ensures Values() == old(Values()) - {id}
    {
      if id in memories {
        ghost var contexts := Contexts();
        UnindexKeeps(memories, contexts, contextIndex, id);
        Unindex(memories[id].data.context, id);
        memories := memories - {id};
        assert Contexts() == contexts - {id};
      }
    }

    /** `fn` is applied to a copy, which then replaces the entry. */
    method UpdateCachedField(id: string, fn: Data -> Data)
      requires Valid()
      modifies this
      ensures Valid() && fresh(memories.Values - old(memories.Values))
      ensures Values() == Edited(old(Values()), id, fn)
    {
      if id in memories {
        var updated := memories[id].CloneForUpdate();
        updated.data := fn(updated.data);
        assert Valid() && Values() == old(Values());
        assert updated.id == id && updated.data == fn(old(Values())[id]);
        CacheSetLocked(updated);
        assert Values() == Edited(old(Values()), id, fn);
      }
    }

    /** The access counters of a committed batch, one copy per cached id. */
    method FlushAccessStats(ids: seq<string>, targeted: bool, now: int)
      requires Valid()
      modifies this
      ensures Valid() && fresh(memories.Values - old(memories.Values))
      ensures Values() == Touched(old(Values()), ids, targeted, now)
    {
      for i := 0 to |ids|
        invariant Valid() && fresh(memories.Values - old(memories.Values))
        invariant Values() == Touched(old(Values()), ids[..i], targeted, now)
      {
        assert ids[..i + 1][..i] == ids[..i];
        UpdateCachedField(ids[i], (d: Data) => Touch(d, targeted, now));
      }
      assert ids[..|ids|] == ids;
    }

    /** The entries of a context, or all of them. */
    method SnapshotForContext(context: string) returns (snapshot: seq<CachedMemory>)
      requires Valid()
      ensures forall e :: e in snapshot <==> e in memories.Values && (context == "" || e.data.context == context)
      ensures forall i, j :: 0 <= i < j < |snapshot| ==> snapshot[i] != snapshot[j]
    {
      snapshot := [];
      if context != "" && context !in contextIndex {
        return;
      }
      var indexed := if context == "" then memories else contextIndex[context];
      assert forall id :: id in indexed ==> id in memories && indexed[id] == memories[id];
      var todo := indexed.Keys;
      while todo != {}
        invariant todo <= indexed.Keys
        invariant forall e :: e in snapshot ==> e.id in indexed && e.id !in todo && indexed[e.id] == e
        invariant forall id :: id in indexed && id !in todo ==> indexed[id] in snapshot
        invariant forall i, j :: 0 <= i < j < |snapshot| ==> snapshot[i] != snapshot[j]
      {
        var id :| id in todo;
        todo, snapshot := todo - {id}, snapshot + [indexed[id]];
      }
    }
  }

  function Touch(d: Data, targeted: bool, now: int): Data {
    d.(accessedAt := now, accesses := d.accesses + 1, targeted := if targeted then d.targeted + 1 else d.targeted)
  }

  function Touched(contents: Contents, ids: seq<string>, targeted: bool, now: int): Contents {
    if ids == [] then contents
    else Edited(Touched(contents, ids[..|ids| - 1], targeted, now), ids[|ids| - 1], (d: Data) => Touch(d, targeted, now))
  }

  // ------------------------------------------------------------ any history

  datatype Op = Set(id: string, data: Data) | Delete(id: string) | Edit(id: string, fn: Data -> Data)
              | Flush(ids: seq<string>, targeted: bool, now: int) | Load(rows: Contents)

  function Applied(contents: Contents, op: Op): Contents {
    match op
    case Set(id, data) => contents[id := data]
    case Delete(id) => contents - {id}
    case Edit(id, fn) => Edited(contents, id, fn)
    case Flush(ids, targeted, now) => Touched(contents, ids, targeted, now)
    case Load(rows) => rows
  }

  function AllApplied(contents: Contents, ops: seq<Op>): Contents {
    if ops == [] then contents else Applied(AllApplied(contents, ops[..|ops| - 1]), ops[|ops| - 1])
  }

  method Perform(cache: Cache, op: Op)
    requires cache.Valid()
    modifies cache
    ensures cache.Valid() && fresh(cache.memories.Values - old(cache.memories.Values))
    ensures cache.Values() == Applied(old(cache.Values()), op)
  {
    match op {
      case Set(id, data) => cache.Put(id, data);
      case Delete(id) => cache.CacheDeleteLocked(id);
      case Edit(id, fn) => cache.UpdateCachedField(id, fn);
      case Flush(ids, targeted, now) => cache.FlushAccessStats(ids, targeted, now);
      case Load(rows) => cache.LoadMemoriesToCache(rows);
    }
  }

  method PerformAll(cache: Cache, ops: seq<Op>)
    requires cache.Valid()
    modifies cache
    ensures cache.Valid() && fresh(cache.memories.Values - old(cache.memories.Values))
    ensures cache.Values() == AllApplied(old(cache.Values()), ops)
  {
    for i := 0 to |ops|
      invariant cache.Valid() && fresh(cache.memories.Values - old(cache.memories.Values))
      invariant cache.Values() == AllApplied(old(cache.Values()), ops[..i])
    {
      assert ops[..i + 1][..i] == ops[..i];
      Perform(cache, ops[i]);
    }
    assert ops[..|ops|] == ops;
  }

  /** A reader's snapshot keeps its field values through any later writes, while
      the cache itself moves on by value. */
  method ReadThenWrite(cache: Cache, context: string, ops: seq<Op>) returns (snapshot: seq<CachedMemory>)
    requires cache.Valid()
    modifies cache
    ensures forall e :: e in snapshot ==> e in old(cache.memories.Values) && e.data == old(e.data)
    ensures forall id :: id in old(cache.memories) && (context == "" || old(cache.memories[id].data.context) == context) ==>
              old(cache.memories[id]) in snapshot
    ensures cache.Valid() && cache.Values() == AllApplied(old(cache.Values()), ops)
  {
    snapshot := cache.SnapshotForContext(context);
    PerformAll(cache, ops);
  }
}
