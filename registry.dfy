/**
 * What the thread registry (LogHolder) stores and answers, stated on values:
 * an append-only sequence of entries, each a thread id with the logger
 * registered for it.
 */
module Registry {
  import opened Options

  /** Thread identities are opaque, comparable tokens. */
  type ThreadId = nat

  datatype Entry<L> = Entry(id: ThreadId, log: L)

  predicate Registered<L>(entries: seq<Entry<L>>, id: ThreadId)
  {
    exists k :: 0 <= k < |entries| && entries[k].id == id
  }

  /** At most one entry per thread id. */
  predicate Unique<L>(entries: seq<Entry<L>>)
  {
    forall i, j :: 0 <= i < j < |entries| ==> entries[i].id != entries[j].id
  }

  /** The position of the first entry for `id`, scanning from the front. */
  function Find<L>(entries: seq<Entry<L>>, id: ThreadId): (r: Option<nat>)
    ensures r.None? <==> !Registered(entries, id)
    ensures r.Some? ==> r.value < |entries| && entries[r.value].id == id
    ensures r.Some? ==> forall j :: 0 <= j < r.value ==> entries[j].id != id
    decreases |entries|
  {
    if entries == [] then None
    else if entries[0].id == id then Some(0)
    else match Find(entries[1..], id)
      case None => None
      case Some(k) => Some(k + 1)
  }

  /**
   * LogHolder::value: the logger of the first entry for `id`; without one, the
   * first logger ever registered; with an empty registry, None (the caller
   * then gets a fresh invalid logger).
   */
  function Lookup<L>(entries: seq<Entry<L>>, id: ThreadId): (r: Option<L>)
    ensures r.None? <==> entries == []
    ensures Registered(entries, id) ==>
      exists k :: 0 <= k < |entries| && entries[k].id == id && r == Some(entries[k].log)
    ensures !Registered(entries, id) && entries != [] ==> r == Some(entries[0].log)
  {
    match Find(entries, id)
    case Some(k) => Some(entries[k].log)
    case None => if entries != [] then Some(entries[0].log) else None
  }

  /** Appending an entry does not move the first match of an id already present. */
  lemma {:induction false} FindAppend<L>(entries: seq<Entry<L>>, e: Entry<L>, id: ThreadId)
    ensures Find(entries + [e], id)
         == if Find(entries, id).Some? then Find(entries, id)
            else if e.id == id then Some(|entries|) else None
    decreases |entries|
  {
    if entries != [] {
      assert (entries + [e])[1..] == entries[1..] + [e];
      FindAppend(entries[1..], e, id);
    }
  }

  /** With unique ids, the lookup of a registered id is its own entry. */
  lemma LookupUnique<L>(entries: seq<Entry<L>>, k: nat)
    requires Unique(entries) && k < |entries|
    ensures Lookup(entries, entries[k].id) == Some(entries[k].log)
  {
  }

  /**
   * Registering a fresh id: a lookup of that id now finds the new logger,
   * and, unless the registry was empty, every other id's lookup is as before.
   */
  lemma LookupAfterInsert<L>(entries: seq<Entry<L>>, id: ThreadId, log: L, other: ThreadId)
    requires !Registered(entries, id)
    ensures Lookup(entries + [Entry(id, log)], id) == Some(log)
    ensures other != id && entries != [] ==>
      Lookup(entries + [Entry(id, log)], other) == Lookup(entries, other)
    ensures Unique(entries) ==> Unique(entries + [Entry(id, log)])
  {
    FindAppend(entries, Entry(id, log), id);
    FindAppend(entries, Entry(id, log), other);
  }
}
