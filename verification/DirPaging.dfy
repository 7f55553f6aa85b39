/** Listing a directory: the server answers pages of at most 256 entries after a cursor, the
    client asks until a page says it is the last. */
module DirPaging {
  import opened FileModel

  const PAGE: nat := 256

  /** `None` is an error status; such a page is empty, says it is the last and leaves the cursor. */
  datatype Page<+T> = Page(entries: Option<seq<T>>, cursor: nat, eof: bool)

  function Min(a: nat, b: nat): nat {
    if a < b then a else b
  }

  /** `handle_readdir` over a listing, or over a directory that cannot be read. */
  method HandleReadDir<T>(listing: Option<seq<T>>, cursor: nat) returns (p: Page<T>)
    ensures listing.None? ==> p == Page(None, cursor, true)
    ensures listing.Some? ==>
              && p.entries == Some(listing.value[Min(cursor, |listing.value|)..Min(cursor + PAGE, |listing.value|)])
              && p.cursor == cursor + |p.entries.value| && p.eof == (|p.entries.value| < PAGE)
  {
    if listing.None? {
      return Page(None, cursor, true);
    }
    var all, skip, i := listing.value, cursor, 0;
    var out: seq<T> := [];
    while i < |all|
      invariant 0 <= i <= |all| && |out| < PAGE
      invariant skip == if i < cursor then cursor - i else 0
      invariant out == all[Min(cursor, i)..i]
    {
      if skip > 0 {
        skip := skip - 1;
      } else {
        out := out + [all[i]];
        if |out| >= PAGE {
          assert out == all[cursor..cursor + PAGE];
          break;
        }
      }
      i := i + 1;
    }
    p := Page(Some(out), cursor + |out|, |out| < PAGE);
  }

  /** `ConnManager::readdir`: every entry exactly once and in order, in one request for each full
      page and one more for the rest, an empty one when the size is a multiple of 256. */
  method ReadDir<T>(listing: Option<seq<T>>) returns (all: Option<seq<T>>, requests: nat)
    ensures all == listing
    ensures requests == if listing.None? then 1 else |listing.value| / PAGE + 1
  {
    var entries: seq<T>, cursor: nat := [], 0;
    requests := 0;
    while true
      invariant listing.Some? ==> cursor == requests * PAGE <= |listing.value| && entries == listing.value[..cursor]
      invariant listing.None? ==> requests == 0
      decreases if listing.Some? then |listing.value| - cursor else 0
    {
      var p := HandleReadDir(listing, cursor);
      requests := requests + 1;
      if p.entries.None? {
        return None, requests;
      }
      cursor := p.cursor;
      entries := entries + p.entries.value;
      if p.eof {
        assert entries == listing.value;
        break;
      }
    }
    all := Some(entries);
  }
}
