/** The saved-calculation history and the favourites set, as both generations of the app keep them:
    newest record first, at most 200 records, deletion by id, and a favourite toggle. */
module History {
  import opened Seqs

  /** One saved calculation. `inputs` is the raw text per input key; `id` and `at` come from the
      random id generator and the clock, which are not modelled. */
  datatype Record = Record(id: string, at: string, templateId: string, templateTitle: string,
                           inputs: map<string, string>, result: string)

  /** `history.slice(0, 200)` */
  const HISTORY_CAP: nat := 200

  function Min(x: nat, y: nat): nat { if x <= y then x else y }

  /** `history.unshift(rec); history = history.slice(0, 200)` */
  function Pushed(h: seq<Record>, rec: Record): seq<Record> {
    ([rec] + h)[..Min(|h| + 1, HISTORY_CAP)]
  }

  /** The new record is first, the previous records follow in their order, and the oldest record is
      dropped once there would be more than 200. */
  lemma PushedSpec(h: seq<Record>, rec: Record)
    ensures |Pushed(h, rec)| == Min(|h| + 1, HISTORY_CAP)
    ensures Pushed(h, rec)[0] == rec
    ensures Pushed(h, rec)[1..] == h[..|Pushed(h, rec)| - 1]
    ensures |h| < HISTORY_CAP ==> Pushed(h, rec) == [rec] + h
  {
    var r := Pushed(h, rec);
    assert r[1..] == ([rec] + h)[1..|r|];
    assert ([rec] + h)[1..] == h;
  }

  /** A history within the cap stays within it. */
  lemma {:induction false} PushedKeepsCap(h: seq<Record>, recs: seq<Record>)
    requires |h| <= HISTORY_CAP
    ensures |PushedAll(h, recs)| <= HISTORY_CAP
    ensures |PushedAll(h, recs)| == Min(|h| + |recs|, HISTORY_CAP)
    decreases |recs|
  {
    if |recs| > 0 {
      PushedKeepsCap(Pushed(h, recs[0]), recs[1..]);
    }
  }

  /** Saving `recs` one after the other. */
  function PushedAll(h: seq<Record>, recs: seq<Record>): seq<Record>
    decreases |recs|
  {
    if |recs| == 0 then h else PushedAll(Pushed(h, recs[0]), recs[1..])
  }

  function KeepsOtherIds(id: string): Record -> bool {
    (x: Record) => x.id != id
  }

  /** `history.filter(x => x.id !== id)` */
  function Removed(h: seq<Record>, id: string): seq<Record> {
    Filter(h, KeepsOtherIds(id))
  }

  /** Deleting removes exactly the records with that id: none is left, every other record is kept, and
      the remaining records keep their order (deleting from a concatenation deletes from each part). */
  lemma RemovedSpec(h: seq<Record>, id: string, more: seq<Record>)
    ensures forall i :: 0 <= i < |Removed(h, id)| ==> Removed(h, id)[i].id != id && Removed(h, id)[i] in h
    ensures forall i :: 0 <= i < |h| && h[i].id != id ==> h[i] in Removed(h, id)
    ensures Removed(h + more, id) == Removed(h, id) + Removed(more, id)
    ensures (forall i :: 0 <= i < |h| ==> h[i].id != id) ==> Removed(h, id) == h
  {
    FilterConcat(h, more, KeepsOtherIds(id));
    if forall i :: 0 <= i < |h| ==> h[i].id != id {
      FilterKeepsAll(h, KeepsOtherIds(id));
    }
  }

  /** `if (favs.has(id)) favs.delete(id); else favs.add(id);` */
  function Toggled(favs: set<string>, id: string): set<string> {
    if id in favs then favs - {id} else favs + {id}
  }

  /** The toggle flips the membership of that one id, leaves every other id alone, and toggling twice
      restores the set. */
  lemma ToggledSpec(favs: set<string>, id: string)
    ensures id in Toggled(favs, id) <==> id !in favs
    ensures forall other :: other != id ==> (other in Toggled(favs, id) <==> other in favs)
    ensures Toggled(Toggled(favs, id), id) == favs
  {
  }
}
