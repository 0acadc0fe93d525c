/** The photo-shoot history store: a newest-first list of at most 50
    PhotoShoot records kept as one entry of the browser's local storage.
    The entry is the `slot` field of a HistoryStore object; its text is
    abstracted to what parsing it yields. */
module Storage {
  import opened Web

  /** At most this many shoots are kept. */
  const MaxEntries: nat := 50

  datatype GeneratedImage = GeneratedImage(url: string, kind: string)

  datatype PhotoShoot = PhotoShoot(
    id: string,
    createdAt: string,
    sourceImageUrl: string,
    location: string,
    customPrompt: string,
    images: seq<GeneratedImage>)

  /** A PhotoShoot without its `id` and `createdAt`: what a caller hands to save. */
  datatype NewShoot = NewShoot(
    sourceImageUrl: string,
    location: string,
    customPrompt: string,
    images: seq<GeneratedImage>)

  /** The local-storage entry under the history key, by what reading it gives:
      no entry, an empty string, text JSON.parse rejects, a JSON value that
      is not an array (such as `null` or an object), or an array of shoots. */
  datatype Slot = Missing | Blank | Unparsable | NonArray | Shoots(entries: seq<PhotoShoot>)

  function Min(a: int, b: int): int {
    if a <= b then a else b
  }

  /** `{...shoot, id, createdAt}` */
  function Stamp(shoot: NewShoot, id: string, createdAt: string): PhotoShoot {
    PhotoShoot(id, createdAt, shoot.sourceImageUrl, shoot.location, shoot.customPrompt, shoot.images)
  }

  /** `history.slice(0, 50)`: the 50 newest entries, in order. */
  function Trim(history: seq<PhotoShoot>): (r: seq<PhotoShoot>)
    ensures |r| == Min(|history|, MaxEntries)
    ensures r <= history
  {
    if |history| <= MaxEntries then history else history[..MaxEntries]
  }

  /** Parse-or-empty: what getPhotoShootHistory reads from a slot. */
  function ReadHistory(slot: Slot, hasWindow: bool): (h: seq<PhotoShoot>)
    ensures !hasWindow ==> h == []
    ensures !slot.Shoots? ==> h == []
  {
    if hasWindow && slot.Shoots? then slot.entries else []
  }

  /** `history.filter((shoot) => shoot.id !== id)` */
  function WithoutId(history: seq<PhotoShoot>, id: string): (r: seq<PhotoShoot>)
    ensures forall s :: s in r <==> s in history && s.id != id
    ensures |r| <= |history|
    ensures (forall s :: s in history ==> s.id != id) ==> r == history
  {
    if history == [] then []
    else if history[0].id == id then WithoutId(history[1..], id)
    else [history[0]] + WithoutId(history[1..], id)
  }

  /** The index `find` stops at: the first entry with the id, or the
      length when there is none. */
  function FindIndex(history: seq<PhotoShoot>, id: string): (k: nat)
    ensures k <= |history|
    ensures forall j :: 0 <= j < k ==> history[j].id != id
    ensures k < |history| ==> history[k].id == id
  {
    if history == [] then 0
    else if history[0].id == id then 0
    else 1 + FindIndex(history[1..], id)
  }

  /** `history.find((shoot) => shoot.id === id) || null` */
  function FirstWithId(history: seq<PhotoShoot>, id: string): (r: Option<PhotoShoot>)
    ensures r.Some? ==> exists k :: FirstAt(history, id, k) && history[k] == r.value
    ensures r.None? <==> forall s :: s in history ==> s.id != id
  {
    var k := FindIndex(history, id);
    if k < |history| then (assert FirstAt(history, id, k); Some(history[k])) else None
  }

  /** Entry k has the id and no earlier entry has it. */
  ghost predicate FirstAt(history: seq<PhotoShoot>, id: string, k: int) {
    0 <= k < |history| && history[k].id == id &&
    forall j :: 0 <= j < k ==> history[j].id != id
  }

  /** No two entries share an id. */
  ghost predicate UniqueIds(history: seq<PhotoShoot>) {
    forall i, j :: 0 <= i < j < |history| ==> history[i].id != history[j].id
  }

  /** `a` can be obtained from `b` by dropping entries, keeping the order. */
  ghost predicate SubsequenceOf(a: seq<PhotoShoot>, b: seq<PhotoShoot>)
    decreases |b|
  {
    if a == [] then true
    else if b == [] then false
    else (a[0] == b[0] && SubsequenceOf(a[1..], b[1..])) || SubsequenceOf(a, b[1..])
  }

  /** The store. `slot` stands for the local-storage entry; `hasWindow` is
      false where there is no browser window (server rendering), in which
      case no operation touches storage. */
  class HistoryStore {
    var slot: Slot
    const hasWindow: bool

    constructor(hasWindow: bool, initial: Slot)
      ensures this.hasWindow == hasWindow && slot == initial
    {
      this.hasWindow := hasWindow;
      slot := initial;
    }

    /** What list returns from the current state. */
    ghost function History(): seq<PhotoShoot>
      reads this
    {
      ReadHistory(slot, hasWindow)
    }

    /** getPhotoShootHistory: the stored array, or [] with no window and for
        a missing, empty or unreadable entry; it never throws. */
    method List() returns (history: seq<PhotoShoot>)
      ensures !hasWindow ==> history == []
      ensures hasWindow && slot.Shoots? ==> history == slot.entries
      ensures slot.Missing? || slot.Blank? || slot.Unparsable? || slot.NonArray? ==> history == []
    {
      if !hasWindow {
        return [];
      }
      match slot
      case Shoots(entries) => history := entries;
      case _ => history := [];
    }

    /** getPhotoShootById: the first listed shoot with the id, or None. */
    method GetById(id: string) returns (r: Option<PhotoShoot>)
      ensures r.Some? ==> r.value.id == id && r.value in History()
      ensures r.Some? ==> exists k :: FirstAt(History(), id, k) && History()[k] == r.value
      ensures r.None? <==> forall s :: s in History() ==> s.id != id
    {
      var history := List();
      r := FirstWithId(history, id);
    }

    /** savePhotoShoot: stamps the shoot, puts it in front of what list
        returns, keeps the 50 newest and writes them back. With no window
        nothing is written and the new record is still returned. The write
        (`setItem`) throws `writeError` when that is Some (a full or blocked
        storage); the exception then propagates and the entry is unchanged. */
    method Save(shoot: NewShoot, freshId: string, createdAt: string, writeError: Option<Thrown>)
      returns (result: Outcome<PhotoShoot>)
      modifies this
      ensures result.Threw? <==> hasWindow && writeError.Some?
      ensures result.Threw? ==> result.thrown == writeError.value && slot == old(slot)
      ensures result.Returned? ==>
        var saved := result.value;
        saved.id == freshId && saved.createdAt == createdAt &&
        saved.sourceImageUrl == shoot.sourceImageUrl && saved.location == shoot.location &&
        saved.customPrompt == shoot.customPrompt && saved.images == shoot.images
      ensures result.Returned? && hasWindow ==>
        slot == Shoots(Trim([result.value] + old(History()))) &&
        History()[0] == result.value &&
        |History()| == Min(|old(History())| + 1, MaxEntries) &&
        History()[1..] == old(History())[..Min(|old(History())|, MaxEntries - 1)]
      ensures !hasWindow ==> slot == old(slot)
    {
      var history := List();
      var saved := Stamp(shoot, freshId, createdAt);
      history := [saved] + history;
      var trimmed := Trim(history);
      if hasWindow {
        if writeError.Some? {
          return Threw(writeError.value);
        }
        slot := Shoots(trimmed);
        SavedHistoryShape(old(History()), saved);
      }
      result := Returned(saved);
    }

    /** deletePhotoShoot: writes back the listed shoots whose id differs.
        The write throws `writeError` when that is Some, leaving the entry
        unchanged. */
    method Delete(id: string, writeError: Option<Thrown>) returns (result: Outcome<()>)
      modifies this
      ensures result.Threw? <==> hasWindow && writeError.Some?
      ensures result.Threw? ==> result.thrown == writeError.value && slot == old(slot)
      ensures result.Returned? && hasWindow ==> slot == Shoots(WithoutId(old(History()), id))
      ensures result.Returned? ==> forall s :: s in History() <==> s in old(History()) && s.id != id
      ensures !hasWindow ==> slot == old(slot)
    {
      var history := List();
      var filtered := WithoutId(history, id);
      if hasWindow {
        if writeError.Some? {
          return Threw(writeError.value);
        }
        slot := Shoots(filtered);
      }
      result := Returned(());
    }

    /** clearHistory: removes the entry. The removal throws `writeError`
        when that is Some, leaving the entry unchanged. */
    method Clear(writeError: Option<Thrown>) returns (result: Outcome<()>)
      modifies this
      ensures result.Threw? <==> hasWindow && writeError.Some?
      ensures result.Threw? ==> result.thrown == writeError.value && slot == old(slot)
      ensures result.Returned? && hasWindow ==> slot == Missing
      ensures result.Returned? ==> History() == []
      ensures !hasWindow ==> slot == old(slot)
    {
      if hasWindow {
        if writeError.Some? {
          return Threw(writeError.value);
        }
        slot := Missing;
      }
      result := Returned(());
    }
  }

  /** A client: once a delete has returned, looking the id up finds nothing;
      a delete that threw leaves the shoot findable. */
  method DeleteThenGet(store: HistoryStore, id: string, writeError: Option<Thrown>)
    returns (deleted: Outcome<()>, found: Option<PhotoShoot>)
    modifies store
    ensures deleted.Returned? ==> found == None
    ensures deleted.Threw? ==> store.slot == old(store.slot) && (found == None <==> FirstWithId(old(store.History()), id) == None)
  {
    deleted := store.Delete(id, writeError);
    found := store.GetById(id);
  }

  /** A client: once a clear has returned, list is empty. */
  method ClearThenList(store: HistoryStore, writeError: Option<Thrown>)
    returns (cleared: Outcome<()>, history: seq<PhotoShoot>)
    modifies store
    ensures cleared.Returned? ==> history == []
  {
    cleared := store.Clear(writeError);
    history := store.List();
  }

  /** Saving puts the new shoot first, grows the list by one up to the cap,
      and keeps the newest old entries in their order, dropping the oldest. */
  lemma SavedHistoryShape(old_history: seq<PhotoShoot>, saved: PhotoShoot)
    ensures var r := Trim([saved] + old_history);
      |r| == Min(|old_history| + 1, MaxEntries) && r[0] == saved &&
      r[1..] == old_history[..Min(|old_history|, MaxEntries - 1)]
  {
  }

  /** Trimming before a prepend changes nothing that the next trim keeps. */
  lemma TrimAbsorbs(saved: PhotoShoot, history: seq<PhotoShoot>)
    ensures Trim([saved] + Trim(history)) == Trim([saved] + history)
  {
  }

  function Reversed(s: seq<PhotoShoot>): (r: seq<PhotoShoot>)
    ensures |r| == |s|
  {
    if s == [] then [] else Reversed(s[1..]) + [s[0]]
  }

  lemma {:induction false} ReversedAt(s: seq<PhotoShoot>, k: nat)
    requires k < |s|
    ensures Reversed(s)[k] == s[|s| - 1 - k]
  {
    if k < |s| - 1 {
      ReversedAt(s[1..], k);
    }
  }

  /** The history after saving `batch[0]`, then `batch[1]`, and so on, onto `history`. */
  function AfterSaves(history: seq<PhotoShoot>, batch: seq<PhotoShoot>): seq<PhotoShoot> {
    if batch == [] then history
    else Trim([batch[|batch| - 1]] + AfterSaves(history, batch[..|batch| - 1]))
  }

  /** A run of saves leaves the 50 newest shoots, newest first. */
  lemma {:induction false} AfterSavesNewestFirst(history: seq<PhotoShoot>, batch: seq<PhotoShoot>)
    requires batch != []
    ensures AfterSaves(history, batch) == Trim(Reversed(batch) + history)
  {
    var last, init := batch[|batch| - 1], batch[..|batch| - 1];
    assert batch == init + [last];
    ReversedSnoc(init, last);
    if init == [] {
      assert Reversed(batch) == [last];
    } else {
      AfterSavesNewestFirst(history, init);
      TrimAbsorbs(last, Reversed(init) + history);
      assert [last] + (Reversed(init) + history) == Reversed(batch) + history;
    }
  }

  lemma {:induction false} ReversedSnoc(s: seq<PhotoShoot>, x: PhotoShoot)
    ensures Reversed(s + [x]) == [x] + Reversed(s)
  {
    if s != [] {
      assert (s + [x])[1..] == s[1..] + [x];
      ReversedSnoc(s[1..], x);
    } else {
      assert Reversed([x]) == Reversed([]) + [x];
    }
  }

  /** Fifty-one distinct saves onto an empty history keep fifty shoots, the
      last fifty saved, newest first; the first one saved is gone. */
  lemma FiftyOneSaves(batch: seq<PhotoShoot>)
    requires |batch| == MaxEntries + 1
    requires forall i, j :: 0 <= i < j < |batch| ==> batch[i] != batch[j]
    ensures |AfterSaves([], batch)| == MaxEntries
    ensures batch[0] !in AfterSaves([], batch)
    ensures forall k :: 0 <= k < MaxEntries ==> AfterSaves([], batch)[k] == batch[MaxEntries - k]
  {
    AfterSavesNewestFirst([], batch);
    var r := AfterSaves([], batch);
    assert Reversed(batch) + [] == Reversed(batch);
    forall k | 0 <= k < MaxEntries ensures r[k] == batch[MaxEntries - k] {
      ReversedAt(batch, k);
    }
  }

  /** Deleting keeps the relative order: filtering a concatenation filters
      each part. */
  lemma {:induction false} WithoutIdConcat(a: seq<PhotoShoot>, b: seq<PhotoShoot>, id: string)
    ensures WithoutId(a + b, id) == WithoutId(a, id) + WithoutId(b, id)
  {
    if a == [] {
      assert a + b == b;
    } else {
      assert (a + b)[0] == a[0] && (a + b)[1..] == a[1..] + b;
      WithoutIdConcat(a[1..], b, id);
    }
  }

  /** What delete leaves is the old list with entries dropped, order kept. */
  lemma {:induction false} WithoutIdSubsequence(history: seq<PhotoShoot>, id: string)
    ensures SubsequenceOf(WithoutId(history, id), history)
  {
    if history != [] {
      WithoutIdSubsequence(history[1..], id);
      SubsequenceOfDropFront(WithoutId(history[1..], id), history);
    }
  }

  lemma {:induction false} SubsequenceOfDropFront(a: seq<PhotoShoot>, b: seq<PhotoShoot>)
    requires b != [] && SubsequenceOf(a, b[1..])
    ensures SubsequenceOf(a, b) && SubsequenceOf([b[0]] + a, b)
  {
  }

  /** Deleting twice is deleting once. */
  lemma WithoutIdIdempotent(history: seq<PhotoShoot>, id: string)
    ensures WithoutId(WithoutId(history, id), id) == WithoutId(history, id)
  {
  }

  /** Save keeps ids unique when the fresh id is not already stored. */
  lemma SaveKeepsIdsUnique(history: seq<PhotoShoot>, saved: PhotoShoot)
    requires UniqueIds(history)
    requires forall s :: s in history ==> s.id != saved.id
    ensures UniqueIds(Trim([saved] + history))
  {
  }

  /** Delete keeps ids unique, and with unique ids it removes exactly one
      entry when the id is present. */
  lemma {:induction false} DeleteKeepsIdsUnique(history: seq<PhotoShoot>, id: string)
    requires UniqueIds(history)
    ensures UniqueIds(WithoutId(history, id))
    ensures |WithoutId(history, id)| == if exists s :: s in history && s.id == id then |history| - 1 else |history|
  {
    if history != [] {
      var tail := history[1..];
      assert UniqueIds(tail) by {
        forall i, j | 0 <= i < j < |tail| ensures tail[i].id != tail[j].id {
          assert tail[i] == history[i + 1] && tail[j] == history[j + 1];
        }
      }
      DeleteKeepsIdsUnique(tail, id);
      var r := WithoutId(history, id);
      if history[0].id == id {
        assert forall s :: s in tail ==> s.id != id by {
          forall s | s in tail ensures s.id != id {
            var j :| 0 <= j < |tail| && tail[j] == s;
            assert history[j + 1] == s;
          }
        }
      } else {
        var rt := WithoutId(tail, id);
        assert r == [history[0]] + rt;
        forall i, j | 0 <= i < j < |r| ensures r[i].id != r[j].id {
          if i == 0 {
            assert r[j] in tail;
            var m :| 0 <= m < |tail| && tail[m] == r[j];
            assert history[m + 1] == r[j];
          }
        }
        assert (exists s :: s in history && s.id == id) == (exists s :: s in tail && s.id == id);
      }
    }
  }
}
