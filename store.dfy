/**
 * The Chroma collection the pass reconciles: chunks with their embeddings,
 * keyed by a generated id, found by their `file_id` metadata. A counter
 * stands in for `uuid4`, so every id the store hands out is fresh.
 */
module Store {
  import opened Common

  type ChunkId = nat

  /** An embedding vector; the model never looks inside one. */
  type Vector = seq<int>

  /** A stored chunk: the document as added and its embedding. */
  datatype Entry = Entry(doc: Document, embedding: Vector)

  type Entries = map<ChunkId, Entry>

  /** The chunks a `where={"file_id": fid}` query matches. */
  function OwnedBy(m: Entries, fid: FileId): (owned: Entries)
    ensures forall k :: k in owned <==> k in m && OwnerOf(m[k].doc) == Some(fid)
    ensures forall k :: k in owned ==> owned[k] == m[k]
  {
    map k | k in m && OwnerOf(m[k].doc) == Some(fid) :: m[k]
  }

  predicate OwnedByOneOf(e: Entry, fids: set<FileId>)
  {
    OwnerOf(e.doc).Some? && OwnerOf(e.doc).value in fids
  }

  /** The store after deleting every chunk owned by one of `fids`. */
  function DropOwners(m: Entries, fids: set<FileId>): Entries
  {
    map k | k in m && !OwnedByOneOf(m[k], fids) :: m[k]
  }

  /** After dropping a set of owners no chunk of theirs is left, and every other owner keeps exactly its chunks. */
  lemma DropOwnersScoped(m: Entries, fids: set<FileId>, fid: FileId)
    ensures fid in fids ==> OwnedBy(DropOwners(m, fids), fid) == map[]
    ensures fid !in fids ==> OwnedBy(DropOwners(m, fids), fid) == OwnedBy(m, fid)
  {
    var d := DropOwners(m, fids);
    if fid in fids {
      assert OwnedBy(d, fid).Keys == {};
    } else {
      assert OwnedBy(d, fid).Keys == OwnedBy(m, fid).Keys;
    }
  }

  /**
   * The owner queries partition the chunks that have an owner: two ids never
   * match the same chunk, and one owner's chunks together with the rest make
   * up the whole store.
   */
  lemma OwnersPartition(m: Entries, a: FileId, b: FileId)
    ensures a != b ==> OwnedBy(m, a).Keys !! OwnedBy(m, b).Keys
    ensures DropOwners(m, {a}) + OwnedBy(m, a) == m
  {
    var whole := DropOwners(m, {a}) + OwnedBy(m, a);
    assert whole.Keys == m.Keys;
    forall k | k in m ensures whole[k] == m[k] {
    }
  }

  /** Removing an owner that has no chunks changes nothing. */
  lemma DropAbsentOwner(m: Entries, fid: FileId)
    requires OwnedBy(m, fid) == map[]
    ensures DropOwners(m, {fid}) == m
  {
    assert forall k :: k in m ==> !OwnedByOneOf(m[k], {fid}) by {
      forall k | k in m ensures !OwnedByOneOf(m[k], {fid}) {
        assert k !in OwnedBy(m, fid);
      }
    }
  }

  /** Deleting the chunks one more owner holds extends the set of dropped owners by that owner. */
  lemma DropOneMore(m: Entries, fids: set<FileId>, fid: FileId)
    ensures DropOwners(m, fids) - OwnedBy(DropOwners(m, fids), fid).Keys == DropOwners(m, fids + {fid})
  {
    var d := DropOwners(m, fids);
    var lhs := d - OwnedBy(d, fid).Keys;
    var rhs := DropOwners(m, fids + {fid});
    assert lhs.Keys == rhs.Keys;
  }

  /** `embed_documents`: one vector per text, or None when the embedding call raises for any of them. */
  function EmbedAll(texts: seq<string>, embed: string -> Option<Vector>): (vectors: Option<seq<Vector>>)
    ensures vectors.Some? <==> forall i :: 0 <= i < |texts| ==> embed(texts[i]).Some?
    ensures vectors.Some? ==> |vectors.value| == |texts|
    ensures vectors.Some? ==> forall i :: 0 <= i < |texts| ==> vectors.value[i] == embed(texts[i]).value
  {
    if texts == [] then Some([])
    else match (embed(texts[0]), EmbedAll(texts[1..], embed))
      case (Some(v), Some(vs)) => Some([v] + vs)
      case _ => None
  }

  /** Documents added under the consecutive ids starting at `base`, in order. */
  function Placed(docs: seq<Document>, vectors: seq<Vector>, base: nat): (m: Entries)
    requires |vectors| == |docs|
    ensures forall k :: k in m <==> base <= k < base + |docs|
    ensures forall k :: k in m ==> m[k] == Entry(docs[k - base], vectors[k - base])
    decreases |docs|
  {
    if docs == [] then map[]
    else Placed(docs[1..], vectors[1..], base + 1)[base := Entry(docs[0], vectors[0])]
  }

  /**
   * Delete-by-owner then insert: every owner of a new document loses its old
   * chunks, then the new documents are added under fresh ids.
   */
  function Replace(m: Entries, docs: seq<Document>, vectors: seq<Vector>, base: nat): Entries
    requires |vectors| == |docs|
  {
    DropOwners(m, OwnersOf(docs)) + Placed(docs, vectors, base)
  }

  /**
   * Replacement is scoped by owner: an owner of a new document ends with
   * exactly its new chunks, every other owner keeps exactly its old ones.
   */
  lemma ReplaceScoped(m: Entries, docs: seq<Document>, vectors: seq<Vector>, base: nat, fid: FileId)
    requires |vectors| == |docs|
    requires forall k :: k in m ==> k < base
    ensures fid in OwnersOf(docs) ==> OwnedBy(Replace(m, docs, vectors, base), fid) == OwnedBy(Placed(docs, vectors, base), fid)
    ensures fid !in OwnersOf(docs) ==> OwnedBy(Replace(m, docs, vectors, base), fid) == OwnedBy(m, fid)
  {
    var r := Replace(m, docs, vectors, base);
    var p := Placed(docs, vectors, base);
    DropOwnersScoped(m, OwnersOf(docs), fid);
    if fid in OwnersOf(docs) {
      assert OwnedBy(r, fid).Keys == OwnedBy(p, fid).Keys;
    } else {
      assert forall k :: k in p ==> OwnerOf(p[k].doc) != Some(fid) by {
        forall k | k in p ensures OwnerOf(p[k].doc) != Some(fid) {
          assert docs[k - base] in docs;
        }
      }
      assert OwnedBy(r, fid).Keys == OwnedBy(m, fid).Keys;
    }
  }

  /**
   * The Chroma collection at `persist_directory`. `nextId` is the source of
   * fresh ids: every id in use lies below it.
   */
  class VectorStore {
    var entries: Entries
    var nextId: nat

    ghost predicate Valid()
      reads this
    {
      forall k :: k in entries ==> k < nextId
    }

    constructor ()
      ensures Valid() && entries == map[] && nextId == 0
    {
      entries := map[];
      nextId := 0;
    }

    /** `_collection.get(where={"file_id": fid})["ids"]`. */
    method IdsOwnedBy(fid: FileId) returns (ids: set<ChunkId>)
      ensures forall k :: k in ids <==> k in entries && OwnerOf(entries[k].doc) == Some(fid)
    {
      ids := set k | k in entries && OwnerOf(entries[k].doc) == Some(fid);
    }

    /** `delete(ids=...)`. */
    method Delete(ids: set<ChunkId>)
      requires Valid()
      modifies this
      ensures Valid()
      ensures entries == old(entries) - ids && nextId == old(nextId)
    {
      entries := entries - ids;
    }

    /** One call of `uuid4`, served by the store's id counter. */
    method NewUuid() returns (u: nat)
      requires Valid()
      modifies this
      ensures Valid()
      ensures u == old(nextId) && nextId == u + 1 && entries == old(entries)
    {
      u := nextId;
      nextId := nextId + 1;
    }

    /**
     * `add_documents`: embed every page content, then add every document
     * under a fresh id. When embedding raises nothing is added.
     */
    method AddDocuments(docs: seq<Document>, embed: string -> Option<Vector>) returns (ok: bool)
      requires Valid()
      modifies this
      ensures Valid()
      ensures ok <==> EmbedAll(Contents(docs), embed).Some?
      ensures ok ==> entries == old(entries) + Placed(docs, EmbedAll(Contents(docs), embed).value, old(nextId))
      ensures ok ==> nextId == old(nextId) + |docs|
      ensures !ok ==> entries == old(entries) && nextId == old(nextId)
    {
      var vectors := EmbedAll(Contents(docs), embed);
      if vectors.None? {
        return false;
      }
      entries := entries + Placed(docs, vectors.value, nextId);
      nextId := nextId + |docs|;
      ok := true;
    }
  }
}
