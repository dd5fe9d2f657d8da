/**
 The cursor-paged Dropbox listing. Every page is committed with its cursor in one transaction,
 so a run that was interrupted goes on from the last page it has, and what a complete inventory
 holds does not depend on how often that happened.
 */
module DropboxListing {
  import opened Common

  /** One listed entry: the key its row goes under, and everything else it carries. */
  datatype Listed<Row> = Listed(key: string, row: Row)

  datatype Page<Row> = Page(entries: seq<Listed<Row>>, cursor: string, hasMore: bool)

  /** What listing answers: the first page, and the page after each cursor. */
  datatype Server<!Row> = Server(first: Page<Row>, after: string -> Page<Row>)

  /** Page `n` of the listing, counted from 1. */
  function PageAt<Row>(server: Server<Row>, n: nat): Page<Row>
    requires n > 0
  {
    if n == 1 then server.first else server.after(PageAt(server, n - 1).cursor)
  }

  /** The listing has `last` pages, and no cursor is empty. */
  ghost predicate Ends<Row>(server: Server<Row>, last: nat) {
    && last > 0
    && forall n :: 0 < n <= last ==> PageAt(server, n).cursor != "" && (PageAt(server, n).hasMore <==> n < last)
  }

  // ---- rows ----

  datatype Object<Row> = Object(row: Row, firstPage: nat, lastPage: nat)

  type Objects<Row> = map<string, Object<Row>>

  /** A new row, or the old one overwritten; its first page stays. */
  function Upsert<Row>(objects: Objects<Row>, page: nat, e: Listed<Row>): Objects<Row> {
    objects[e.key := Object(e.row, if e.key in objects then objects[e.key].firstPage else page, page)]
  }

  function UpsertAll<Row>(objects: Objects<Row>, page: nat, entries: seq<Listed<Row>>): Objects<Row> {
    if entries == [] then objects
    else Upsert(UpsertAll(objects, page, entries[..|entries| - 1]), page, entries[|entries| - 1])
  }

  /** The upserts of pages 1 to `n`, in order. */
  ghost function Upserts<Row>(server: Server<Row>, n: nat): Objects<Row> {
    if n == 0 then map[] else UpsertAll(Upserts(server, n - 1), n, PageAt(server, n).entries)
  }

  // ---- what a key's row says of the pages ----

  ghost predicate Named<Row>(entries: seq<Listed<Row>>, key: string) {
    exists i :: 0 <= i < |entries| && entries[i].key == key
  }

  ghost predicate LastNamed<Row>(entries: seq<Listed<Row>>, key: string, row: Row) {
    exists i :: 0 <= i < |entries| && entries[i] == Listed(key, row)
      && forall j :: i < j < |entries| ==> entries[j].key != key
  }

  ghost predicate NamesIn<Row>(server: Server<Row>, n: nat, page: nat, key: string) {
    0 < page <= n && Named(PageAt(server, page).entries, key)
  }

  /** First and last page naming the key, and the last row the last of them gives it. */
  ghost predicate Spans<Row>(server: Server<Row>, n: nat, key: string, o: Object<Row>) {
    && NamesIn(server, n, o.firstPage, key) && NamesIn(server, n, o.lastPage, key)
    && (forall page: nat :: NamesIn(server, n, page, key) ==> o.firstPage <= page <= o.lastPage)
    && LastNamed(PageAt(server, o.lastPage).entries, key, o.row)
  }

  lemma {:induction false} UpsertAllRow<Row>(objects: Objects<Row>, page: nat, entries: seq<Listed<Row>>, key: string)
    ensures var after := UpsertAll(objects, page, entries);
      if Named(entries, key)
      then key in after && after[key].lastPage == page && LastNamed(entries, key, after[key].row)
        && after[key].firstPage == (if key in objects then objects[key].firstPage else page)
      else (key in after <==> key in objects) && (key in after ==> after[key] == objects[key])
  {
    if entries != [] {
      var init, last := entries[..|entries| - 1], entries[|entries| - 1];
      UpsertAllRow(objects, page, init, key);
      assert entries == init + [last];
      if last.key == key {
        assert entries[|entries| - 1] == Listed(key, last.row);
      }
    }
  }

  /** The pages' upserts leave exactly the keys some page names, each spanning its pages. */
  lemma {:induction false} UpsertsSpan<Row>(server: Server<Row>, n: nat, key: string)
    ensures key in Upserts(server, n) <==> exists page: nat :: NamesIn(server, n, page, key)
    ensures key in Upserts(server, n) ==> Spans(server, n, key, Upserts(server, n)[key])
  {
    if n > 0 {
      UpsertsSpan(server, n - 1, key);
      var entries := PageAt(server, n).entries;
      UpsertAllRow(Upserts(server, n - 1), n, entries, key);
      if Named(entries, key) {
        assert NamesIn(server, n, n, key);
      }
      if key in Upserts(server, n - 1) {
        assert NamesIn(server, n, Upserts(server, n - 1)[key].firstPage, key);
      }
      forall page: nat | NamesIn(server, n, page, key) && page != n ensures NamesIn(server, n - 1, page, key) {}
    }
  }

  // ---- the loop ----

  datatype PageRow = PageRow(cursorIn: Option<string>, cursorOut: string, count: nat)

  datatype Status = Running | Complete

  /** One inventory's rows. */
  class Inventory<!Row> {
    var status: Status
    var cursor: Option<string>
    var hasMore: Option<bool>
    var pageCount: nat
    var objects: Objects<Row>
    var pages: map<nat, PageRow>

    /** The rows are those of the first `pageCount` pages. */
    ghost predicate Follows(server: Server<Row>, last: nat)
      reads this
    {
      && pageCount <= last && objects == Upserts(server, pageCount)
      && (forall n :: n in pages <==> 0 < n <= pageCount)
      && (forall n :: n in pages ==>
            && pages[n].cursorOut == PageAt(server, n).cursor
            && pages[n].count == |PageAt(server, n).entries|)
      && cursor == (if pageCount == 0 then None else Some(PageAt(server, pageCount).cursor))
      && hasMore == (if pageCount == 0 then None else Some(PageAt(server, pageCount).hasMore))
      && (status == Complete ==> pageCount == last)
    }

    constructor ()
      ensures status == Running && pageCount == 0 && objects == map[] && pages == map[]
      ensures forall server, last: nat :: Follows(server, last)
    {
      status, cursor, hasMore, pageCount, objects, pages := Running, None, None, 0, map[], map[];
    }

    /** One page: its entries, its page row and the cursor, in one transaction. */
    method Commit(page: Page<Row>)
      modifies this
      ensures objects == UpsertAll(old(objects), old(pageCount) + 1, page.entries)
      ensures pageCount == old(pageCount) + 1 && cursor == Some(page.cursor) && hasMore == Some(page.hasMore)
      ensures pages == old(pages)[pageCount := PageRow(old(cursor), page.cursor, |page.entries|)]
      ensures status == old(status)
    {
      var number := pageCount + 1;
      var rows := objects;
      for i := 0 to |page.entries|
        invariant rows == UpsertAll(objects, number, page.entries[..i])
      {
        rows := Upsert(rows, number, page.entries[i]);
        assert page.entries[..i + 1][..i] == page.entries[..i];
      }
      assert page.entries[..|page.entries|] == page.entries;
      objects := rows;
      pages := pages[number := PageRow(cursor, page.cursor, |page.entries|)];
      cursor, hasMore, pageCount := Some(page.cursor), Some(page.hasMore), number;
    }

    /** The page after the cursor, or the first one. */
    method Advance(server: Server<Row>, ghost last: nat)
      requires Ends(server, last) && Follows(server, last) && pageCount < last
      modifies this
      ensures Follows(server, last) && pageCount == old(pageCount) + 1 && status == old(status)
    {
      ghost var rows := objects;
      var page := if cursor.Some? && cursor.value != "" then server.after(cursor.value) else server.first;
      assert page == PageAt(server, pageCount + 1);
      Commit(page);
      assert objects == UpsertAll(rows, pageCount, page.entries) == Upserts(server, pageCount);
    }

    /**
     Pages on from wherever the inventory stands. A call may raise at any page; the rows then
     stand for the pages so far, and the next run goes on from there.
     */
    method Run(server: Server<Row>, ghost last: nat) returns (r: Result<bool, string>)
      requires Ends(server, last) && Follows(server, last)
      modifies this
      ensures Follows(server, last) && pageCount >= old(pageCount)
      ensures r.Ok? ==> status == Complete
    {
      if status == Complete {
        return Ok(true);
      }
      while true
        invariant Follows(server, last) && pageCount >= old(pageCount) && status == Running
        decreases last - pageCount
      {
        var started := cursor.Some? && cursor.value != "";
        if started && hasMore == Some(false) {
          status := Complete;
          break;
        }
        var fails := MayFail();
        if fails {
          return Raised("Dropbox call failed");
        }
        Advance(server, last);
      }
      r := Ok(true);
    }
  }

  /**
   However often it was interrupted, a complete inventory has exactly the pages 1 to `last`, and
   for every key any of them names the last row given, with the first and last page naming it.
   */
  lemma CompleteInventoryIsTheListing<Row>(inventory: Inventory<Row>, server: Server<Row>, last: nat)
    requires Ends(server, last) && inventory.Follows(server, last) && inventory.status == Complete
    ensures forall n :: n in inventory.pages <==> 0 < n <= last
    ensures forall key :: key in inventory.objects <==> exists page: nat :: NamesIn(server, last, page, key)
    ensures forall key :: key in inventory.objects ==> Spans(server, last, key, inventory.objects[key])
  {
    forall key
      ensures key in inventory.objects <==> exists page: nat :: NamesIn(server, last, page, key)
      ensures key in inventory.objects ==> Spans(server, last, key, inventory.objects[key])
    {
      UpsertsSpan(server, last, key);
    }
  }
}
