/** The watchlist ("My List"): an array of events kept under the single storage key
    `sceneflix_bookmarks`. Every operation reads the whole array, changes it and writes
    the whole array back; storage errors are caught and turn the call into a no-op. */
module BookmarkService {
  import opened Types

  /** Some entry of `s` has id `id` (`s.some(b => b.id === id)`). */
  predicate HasId(s: seq<Event>, id: string) {
    exists i | 0 <= i < |s| :: s[i].id == id
  }

  /** `s.filter(b => b.id !== id)`: the entries with another id, in their order. */
  function WithoutId(s: seq<Event>, id: string): (r: seq<Event>)
    ensures |r| <= |s|
    ensures !HasId(r, id)
    ensures forall e :: e in r <==> e in s && e.id != id
  {
    if s == [] then []
    else if s[0].id == id then WithoutId(s[1..], id)
    else [s[0]] + WithoutId(s[1..], id)
  }

  /** The list after adding `e` unless an entry with its id is already there: the prior
      entries stay in front, in order, and at most one entry is added. */
  function AddedIfAbsent(s: seq<Event>, e: Event): (r: seq<Event>)
    ensures s <= r && |r| <= |s| + 1
    ensures HasId(r, e.id)
    ensures |r| == |s| + 1 <==> !HasId(s, e.id)
    ensures !HasId(s, e.id) ==> r == s + [e]
  {
    if HasId(s, e.id) then s else
      assert (s + [e])[|s|] == e;
      s + [e]
  }

  /** No two entries share an id. */
  predicate NoDuplicateIds(s: seq<Event>) {
    forall i, j | 0 <= i < j < |s| :: s[i].id != s[j].id
  }

  /** How many entries of `s` have id `id`. */
  function CountId(s: seq<Event>, id: string): (n: nat)
    ensures n <= |s|
    ensures n == 0 <==> !HasId(s, id)
  {
    if s == [] then 0
    else
      assert forall i | 1 <= i < |s| :: s[i] == s[1..][i - 1];
      (if s[0].id == id then 1 else 0) + CountId(s[1..], id)
  }

  /** Counting distributes over concatenation. */
  lemma {:induction false} CountIdAppend(s: seq<Event>, t: seq<Event>, id: string)
    ensures CountId(s + t, id) == CountId(s, id) + CountId(t, id)
  {
    if s == [] {
      assert s + t == t;
    } else {
      assert (s + t)[0] == s[0];
      assert (s + t)[1..] == s[1..] + t;
      CountIdAppend(s[1..], t, id);
    }
  }

  /** In a list without duplicate ids, a present id occurs exactly once. */
  lemma {:induction false} CountOnceWithoutDuplicates(s: seq<Event>, id: string)
    requires NoDuplicateIds(s) && HasId(s, id)
    ensures CountId(s, id) == 1
  {
    var rest := s[1..];
    assert NoDuplicateIds(rest) by {
      forall i, j | 0 <= i < j < |rest| ensures rest[i].id != rest[j].id {
        assert rest[i] == s[i + 1] && rest[j] == s[j + 1];
      }
    }
    if s[0].id == id {
      assert !HasId(rest, id) by {
        forall i | 0 <= i < |rest| ensures rest[i].id != id {
          assert rest[i] == s[i + 1];
        }
      }
    } else {
      var k :| 0 <= k < |s| && s[k].id == id;
      assert rest[k - 1] == s[k];
      CountOnceWithoutDuplicates(rest, id);
    }
  }

  /** Adding keeps ids distinct, and afterwards the event's id occurs exactly once. */
  lemma AddedIfAbsentKeepsIdsDistinct(s: seq<Event>, e: Event)
    requires NoDuplicateIds(s)
    ensures NoDuplicateIds(AddedIfAbsent(s, e))
    ensures CountId(AddedIfAbsent(s, e), e.id) == 1
  {
    var r := AddedIfAbsent(s, e);
    if !HasId(s, e.id) {
      forall i, j | 0 <= i < j < |r| ensures r[i].id != r[j].id {
        if j == |s| {
          assert r[i] == s[i];
        } else {
          assert r[i] == s[i] && r[j] == s[j];
        }
      }
    }
    CountOnceWithoutDuplicates(r, e.id);
  }

  /** Filtering keeps ids distinct. */
  lemma {:induction false} WithoutIdKeepsIdsDistinct(s: seq<Event>, id: string)
    requires NoDuplicateIds(s)
    ensures NoDuplicateIds(WithoutId(s, id))
  {
    if s != [] {
      var rest := s[1..];
      assert NoDuplicateIds(rest) by {
        forall i, j | 0 <= i < j < |rest| ensures rest[i].id != rest[j].id {
          assert rest[i] == s[i + 1] && rest[j] == s[j + 1];
        }
      }
      WithoutIdKeepsIdsDistinct(rest, id);
      if s[0].id != id {
        var w := WithoutId(rest, id);
        var r := [s[0]] + w;
        assert !HasId(rest, s[0].id) by {
          forall i | 0 <= i < |rest| ensures rest[i].id != s[0].id {
            assert rest[i] == s[i + 1];
          }
        }
        forall i, j | 0 <= i < j < |r| ensures r[i].id != r[j].id {
          assert r[j] == w[j - 1];
          assert w[j - 1] in rest;
          if i > 0 {
            assert r[i] == w[i - 1];
          }
        }
      }
    }
  }

  /** Filtering distributes over concatenation. */
  lemma {:induction false} WithoutIdAppend(s: seq<Event>, t: seq<Event>, id: string)
    ensures WithoutId(s + t, id) == WithoutId(s, id) + WithoutId(t, id)
  {
    if s != [] {
      assert (s + t)[0] == s[0];
      assert (s + t)[1..] == s[1..] + t;
      WithoutIdAppend(s[1..], t, id);
    } else {
      assert s + t == t;
    }
  }

  /** Removing an id no entry has leaves the list as it is. */
  lemma {:induction false} WithoutAbsentId(s: seq<Event>, id: string)
    requires !HasId(s, id)
    ensures WithoutId(s, id) == s
  {
    if s != [] {
      assert !HasId(s[1..], id) by {
        forall i | 0 <= i < |s[1..]| ensures s[1..][i].id != id {
          assert s[1..][i] == s[i + 1];
        }
      }
      WithoutAbsentId(s[1..], id);
    }
  }

  /** Removal is idempotent: a second `removeBookmark(id)` stores the same list. */
  lemma WithoutIdIdempotent(s: seq<Event>, id: string)
    ensures WithoutId(WithoutId(s, id), id) == WithoutId(s, id)
  {
    WithoutAbsentId(WithoutId(s, id), id);
  }

  /** Filtering keeps the entries with other ids in their original order: it is
      determined by what it does to each single entry. */
  lemma WithoutIdSingleton(e: Event, id: string)
    ensures WithoutId([e], id) == if e.id == id then [] else [e]
  {
  }

  /** Adding is idempotent: a second `addBookmark(e)` leaves the list unchanged. */
  lemma AddedIfAbsentIdempotent(s: seq<Event>, e: Event)
    ensures AddedIfAbsent(AddedIfAbsent(s, e), e) == AddedIfAbsent(s, e)
    ensures HasId(AddedIfAbsent(s, e), e.id)
  {
    if !HasId(s, e.id) {
      assert (s + [e])[|s|] == e;
    }
  }

  /** Appending an event whose id is new and then removing that id gives back the list. */
  lemma RemoveUndoesAdd(s: seq<Event>, e: Event)
    requires !HasId(s, e.id)
    ensures WithoutId(AddedIfAbsent(s, e), e.id) == s
  {
    WithoutIdAppend(s, [e], e.id);
    WithoutAbsentId(s, e.id);
  }

  /** The storage cell under the bookmarks key, with the two ways it can fail. */
  class BookmarkStore {
    /** The array `JSON.parse` yields from the stored text; `[]` when the key is absent. */
    var entries: seq<Event>
    /** False when `getItem` or `JSON.parse` throws (disabled storage, corrupt text). */
    var readable: bool
    /** False when `setItem` throws (quota exceeded, disabled storage). */
    const writable: bool

    constructor (entries: seq<Event>, readable: bool, writable: bool)
      ensures this.entries == entries && this.readable == readable && this.writable == writable
    {
      this.entries := entries;
      this.readable := readable;
      this.writable := writable;
    }

    /** What `getBookmarks` returns: the stored array, or `[]` when reading fails. */
    function Bookmarks(): seq<Event>
      reads this
    {
      if readable then entries else []
    }

    /** `getBookmarks`: never throws; `[]` when the key is absent or unreadable. */
    method GetBookmarks() returns (r: seq<Event>)
      ensures readable ==> r == entries
      ensures !readable ==> r == []
    {
      if readable {
        r := entries;
      } else {
        r := [];
      }
    }

    /** Replaces the stored text by the serialised `s` (`setItem`); a failed write is
        caught by the caller and changes nothing. */
    method Write(s: seq<Event>)
      modifies this
      ensures writable ==> readable && entries == s
      ensures !writable ==> readable == old(readable) && entries == old(entries)
    {
      if writable {
        entries := s;
        readable := true;
      }
    }

    /** `addBookmark(e)`: appends `e` when no entry has its id, else writes nothing. */
    method AddBookmark(e: Event)
      modifies this
      ensures if writable && !HasId(old(Bookmarks()), e.id)
              then readable && entries == old(Bookmarks()) + [e]
              else readable == old(readable) && entries == old(entries)
      ensures writable ==> Bookmarks() == AddedIfAbsent(old(Bookmarks()), e)
      ensures old(NoDuplicateIds(Bookmarks())) ==> NoDuplicateIds(Bookmarks())
      ensures writable && old(NoDuplicateIds(Bookmarks())) ==> CountId(Bookmarks(), e.id) == 1
    {
      var bookmarks := GetBookmarks();
      if NoDuplicateIds(bookmarks) {
        AddedIfAbsentKeepsIdsDistinct(bookmarks, e);
      }
      if !HasId(bookmarks, e.id) {
        Write(bookmarks + [e]);
      }
    }

    /** `removeBookmark(id)`: stores the list filtered to the other ids, even when
        nothing matched. */
    method RemoveBookmark(id: string)
      modifies this
      ensures writable ==> readable && entries == WithoutId(old(Bookmarks()), id)
      ensures !writable ==> readable == old(readable) && entries == old(entries)
      ensures writable ==> !HasId(Bookmarks(), id)
      ensures old(NoDuplicateIds(Bookmarks())) ==> NoDuplicateIds(Bookmarks())
    {
      var bookmarks := GetBookmarks();
      if NoDuplicateIds(bookmarks) {
        WithoutIdKeepsIdsDistinct(bookmarks, id);
      }
      Write(WithoutId(bookmarks, id));
    }

    /** `isBookmarked(id)`: some entry the store yields has that id. */
    method IsBookmarked(id: string) returns (b: bool)
      ensures b <==> HasId(Bookmarks(), id)
    {
      var bookmarks := GetBookmarks();
      b := HasId(bookmarks, id);
    }

    /** `toggleBookmark(e)`: removes `e.id` when present and returns false, else adds
        `e` and returns true. When the write fails the answer still says what was
        attempted, and the store is left as it was. */
    method ToggleBookmark(e: Event) returns (nowBookmarked: bool)
      modifies this
      ensures nowBookmarked == !old(HasId(Bookmarks(), e.id))
      ensures writable ==>
        Bookmarks() == (if nowBookmarked then old(Bookmarks()) + [e] else WithoutId(old(Bookmarks()), e.id))
      ensures writable ==> (nowBookmarked <==> HasId(Bookmarks(), e.id))
      ensures !writable ==> readable == old(readable) && entries == old(entries)
      ensures old(NoDuplicateIds(Bookmarks())) ==> NoDuplicateIds(Bookmarks())
      ensures writable && old(NoDuplicateIds(Bookmarks())) ==> CountId(Bookmarks(), e.id) == (if nowBookmarked then 1 else 0)
    {
      ghost var before := Bookmarks();
      var present := IsBookmarked(e.id);
      if present {
        RemoveBookmark(e.id);
        nowBookmarked := false;
      } else {
        AddBookmark(e);
        nowBookmarked := true;
        AddedIfAbsentIdempotent(before, e);
      }
    }
  }

  /** Two toggles of an event that is not in a writable store answer true, then false,
      and leave the list as it was. */
  method ToggleTwice(store: BookmarkStore, e: Event) returns (first: bool, second: bool)
    requires store.writable && !HasId(store.Bookmarks(), e.id)
    modifies store
    ensures first && !second
    ensures store.Bookmarks() == old(store.Bookmarks())
  {
    ghost var before := store.Bookmarks();
    first := store.ToggleBookmark(e);
    second := store.ToggleBookmark(e);
    RemoveUndoesAdd(before, e);
  }
}
