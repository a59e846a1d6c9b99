/** The library lending tracker: books, students with a list of borrowed books that only
    grows and never holds two books with the same id, and a manager that keeps the roster,
    the five-book catalogue, and saves the whole roster after every borrow. */
module Library {
  import opened KotlinText

  // ---------------------------------------------------------------- values

  /** What the ledger compares and keeps of a book: its id and title. */
  datatype Entry = Entry(id: int, title: string)

  /** What the store keeps of a student. */
  datatype StudentRecord = StudentRecord(name: string, borrowed: seq<Entry>)

  /** The catalogue every manager starts with. */
  const Catalogue: seq<Entry> := [
    Entry(1, "Sách 01"), Entry(2, "Sách 02"), Entry(3, "Sách 03"),
    Entry(4, "Sách 04"), Entry(5, "Sách 05")
  ]

  /** The students a manager starts with when the store holds none. */
  const SeedNames: seq<string> := ["Nguyen Van A", "Nguyen Thi B", "Nguyen Van C"]

  // ---------------------------------------------------------------- objects

  /** A book; `selected` is the check-box flag the borrow dialog toggles in place. */
  class Book {
    const id: int
    const title: string
    var selected: bool

    constructor (id: int, title: string, selected: bool)
      ensures this.id == id && this.title == title && this.selected == selected
    {
      this.id := id;
      this.title := title;
      this.selected := selected;
    }

    /** The dialog's check box: `book.selected = it`. */
    method SetSelected(value: bool)
      modifies this
      ensures selected == value
    {
      selected := value;
    }
  }

  function Entries(bs: seq<Book>): (r: seq<Entry>)
    ensures |r| == |bs|
    ensures forall i :: 0 <= i < |bs| ==> r[i] == Entry(bs[i].id, bs[i].title)
  {
    seq(|bs|, i requires 0 <= i < |bs| => Entry(bs[i].id, bs[i].title))
  }

  /** A student and the books they hold, in borrowing order. */
  class Student {
    const name: string
    var borrowedBooks: seq<Book>

    constructor (name: string, borrowedBooks: seq<Book>)
      ensures this.name == name && this.borrowedBooks == borrowedBooks
    {
      this.name := name;
      this.borrowedBooks := borrowedBooks;
    }

    /** Student.borrowBooks: for each requested book, in request order, appends a copy
        with the flag cleared unless a book with that id is already held (the check runs
        against the list as it grows). The requested Book objects are left alone. */
    method BorrowBooks(books: seq<Book>)
      modifies this
      ensures Entries(borrowedBooks) == BorrowAll(Entries(old(borrowedBooks)), Entries(books))
      ensures old(borrowedBooks) <= borrowedBooks
      ensures forall k :: |old(borrowedBooks)| <= k < |borrowedBooks| ==>
                fresh(borrowedBooks[k]) && !borrowedBooks[k].selected
      ensures forall b :: b in books ==> b.selected == old(b.selected)
      ensures DistinctIds(Entries(old(borrowedBooks))) ==> DistinctIds(Entries(borrowedBooks))
    {
      var i := 0;
      while i < |books|
        invariant 0 <= i <= |books|
        invariant Entries(borrowedBooks) == BorrowAll(Entries(old(borrowedBooks)), Entries(books[..i]))
        invariant old(borrowedBooks) <= borrowedBooks
        invariant forall k :: |old(borrowedBooks)| <= k < |borrowedBooks| ==>
                    fresh(borrowedBooks[k]) && !borrowedBooks[k].selected
      {
        var book := books[i];
        var held := exists k :: 0 <= k < |borrowedBooks| && borrowedBooks[k].id == book.id;
        assert held == HasId(Entries(borrowedBooks), book.id);
        if !held {
          var copy := new Book(book.id, book.title, false);
          borrowedBooks := borrowedBooks + [copy];
        }
        assert Entries(books[..i + 1])[..i] == Entries(books[..i]);
        i := i + 1;
      }
      assert books[..i] == books;
      if DistinctIds(Entries(old(borrowedBooks))) {
        BorrowAllDistinct(Entries(old(borrowedBooks)), Entries(books));
      }
    }
  }

  /** StudentRepository as an abstract store: the saved roster (absent before the first
      save) and how many times the roster was saved. */
  class StudentStore {
    var stored: Option<seq<StudentRecord>>
    var saves: nat

    constructor (stored: Option<seq<StudentRecord>>)
      ensures this.stored == stored && saves == 0
    {
      this.stored := stored;
      saves := 0;
    }

    /** load(): the saved roster, or an empty list when nothing was saved. */
    function Load(): seq<StudentRecord>
      reads this
    {
      stored.GetOr([])
    }

    /** save(students): replaces the stored roster. */
    method Save(roster: seq<StudentRecord>)
      modifies this
      ensures stored == Some(roster) && saves == old(saves) + 1
      ensures Load() == roster
    {
      stored := Some(roster);
      saves := saves + 1;
    }
  }

  function Snapshot(ss: seq<Student>): (r: seq<StudentRecord>)
    reads ss
    ensures |r| == |ss|
    ensures forall i :: 0 <= i < |ss| ==> r[i] == StudentRecord(ss[i].name, Entries(ss[i].borrowedBooks))
  {
    seq(|ss|, i requires 0 <= i < |ss| reads ss => StudentRecord(ss[i].name, Entries(ss[i].borrowedBooks)))
  }

  /** Fresh, unselected Book objects for the given entries. */
  method MakeBooks(es: seq<Entry>) returns (bs: seq<Book>)
    ensures Entries(bs) == es
    ensures forall b :: b in bs ==> fresh(b) && !b.selected
  {
    bs := [];
    var i := 0;
    while i < |es|
      invariant 0 <= i <= |es|
      invariant Entries(bs) == es[..i]
      invariant forall b :: b in bs ==> fresh(b) && !b.selected
    {
      var b := new Book(es[i].id, es[i].title, false);
      bs := bs + [b];
      i := i + 1;
    }
  }

  /** Fresh, pairwise distinct Student objects holding the given records. */
  method MakeStudents(records: seq<StudentRecord>) returns (ss: seq<Student>)
    ensures Snapshot(ss) == records
    ensures forall s :: s in ss ==> fresh(s)
    ensures forall j, k :: 0 <= j < k < |ss| ==> ss[j] != ss[k]
  {
    ss := [];
    var i := 0;
    while i < |records|
      invariant 0 <= i <= |records|
      invariant Snapshot(ss) == records[..i]
      invariant forall s :: s in ss ==> fresh(s)
      invariant forall j, k :: 0 <= j < k < |ss| ==> ss[j] != ss[k]
    {
      var books := MakeBooks(records[i].borrowed);
      var s := new Student(records[i].name, books);
      ss := ss + [s];
      i := i + 1;
    }
  }

  /** LibraryManager: the roster, the catalogue and the store it saves to. */
  class LibraryManager {
    const repository: StudentStore
    var students: seq<Student>
    var allBooks: seq<Book>

    /** The roster is never empty (the screen starts from its first student) and holds
        each student object once. */
    ghost predicate Valid()
      reads this
    {
      && |students| >= 1
      && (forall j, k :: 0 <= j < k < |students| ==> students[j] != students[k])
    }

    /** Loads the roster; an empty load is replaced by the three seed students with no
        books. The catalogue is books 1..5, none selected. Nothing is saved. */
    constructor (repository: StudentStore)
      ensures Valid()
      ensures this.repository == repository
      ensures repository.Load() != [] ==> Snapshot(students) == repository.Load()
      ensures repository.Load() == [] ==>
                Snapshot(students) == seq(|SeedNames|, i requires 0 <= i < |SeedNames| => StudentRecord(SeedNames[i], []))
      ensures forall s :: s in students ==> fresh(s)
      ensures Entries(allBooks) == Catalogue
      ensures forall b :: b in allBooks ==> fresh(b) && !b.selected
    {
      var loaded := repository.Load();
      var roster := if loaded != [] then loaded
                    else seq(|SeedNames|, i requires 0 <= i < |SeedNames| => StudentRecord(SeedNames[i], []));
      var ss := MakeStudents(roster);
      var bs := MakeBooks(Catalogue);
      this.repository := repository;
      students := ss;
      allBooks := bs;
    }

    /** LibraryManager.borrowBooks: borrows for the given student, then saves the whole
        roster exactly once. No other student changes. */
    method BorrowBooks(student: Student, books: seq<Book>)
      requires Valid()
      modifies student, repository
      ensures Valid()
      ensures Entries(student.borrowedBooks) == BorrowAll(Entries(old(student.borrowedBooks)), Entries(books))
      ensures old(student.borrowedBooks) <= student.borrowedBooks
      ensures forall s :: s in students && s != student ==> s.borrowedBooks == old(s.borrowedBooks)
      ensures forall b :: b in books ==> b.selected == old(b.selected)
      ensures repository.saves == old(repository.saves) + 1
      ensures repository.stored == Some(Snapshot(students))
    {
      student.BorrowBooks(books);
      repository.Save(Snapshot(students));
    }

    /** The dialog's confirm button: borrows the catalogue books that are ticked. */
    method ConfirmBorrow(student: Student)
      requires Valid()
      modifies student, repository
      ensures Valid()
      ensures Entries(student.borrowedBooks) ==
                BorrowAll(Entries(old(student.borrowedBooks)), Entries(old(SelectedBooks(allBooks))))
      ensures forall s :: s in students && s != student ==> s.borrowedBooks == old(s.borrowedBooks)
      ensures repository.saves == old(repository.saves) + 1
      ensures repository.stored == Some(Snapshot(students))
    {
      var selected := SelectedBooks(allBooks);
      BorrowBooks(student, selected);
    }
  }

  /** The positions of the ticked books, in increasing order: every ticked position
      appears once, and no other. */
  function SelectedPositions(bs: seq<Book>): (idx: seq<nat>)
    reads bs
    ensures forall j :: 0 <= j < |idx| ==> idx[j] < |bs| && bs[idx[j]].selected
    ensures forall i, j :: 0 <= i < j < |idx| ==> idx[i] < idx[j]
    ensures forall k :: 0 <= k < |bs| && bs[k].selected ==> k in idx
  {
    if bs == [] then []
    else SelectedPositions(bs[..|bs| - 1]) + (if bs[|bs| - 1].selected then [|bs| - 1] else [])
  }

  /** allBooks.filter { it.selected }: the ticked books, in catalogue order. */
  function SelectedBooks(bs: seq<Book>): (r: seq<Book>)
    reads bs
    ensures |r| <= |bs|
    ensures forall b :: b in r ==> b in bs && b.selected
    ensures forall b :: b in bs && b.selected ==> b in r
  {
    if bs == [] then []
    else SelectedBooks(bs[..|bs| - 1]) + (if bs[|bs| - 1].selected then [bs[|bs| - 1]] else [])
  }

  /** The ticked books are exactly the books at the ticked positions, in increasing
      position order: the catalogue with the unticked books removed, nothing reordered
      or repeated. */
  lemma {:induction false} SelectedBooksInOrder(bs: seq<Book>)
    ensures var r, idx := SelectedBooks(bs), SelectedPositions(bs);
      |r| == |idx| && forall j :: 0 <= j < |r| ==> r[j] == bs[idx[j]]
  {
    if bs != [] {
      var init, last := bs[..|bs| - 1], bs[|bs| - 1];
      SelectedBooksInOrder(init);
      var r0, idx0 := SelectedBooks(init), SelectedPositions(init);
      var r, idx := SelectedBooks(bs), SelectedPositions(bs);
      assert r == r0 + (if last.selected then [last] else []);
      assert idx == idx0 + (if last.selected then [|bs| - 1] else []);
      forall j | 0 <= j < |r| ensures r[j] == bs[idx[j]] {
        if j < |r0| {
          assert r[j] == r0[j] == init[idx0[j]];
        }
      }
    }
  }

  // ---------------------------------------------------------------- the ledger on values

  predicate HasId(es: seq<Entry>, id: int) {
    exists k :: 0 <= k < |es| && es[k].id == id
  }

  predicate DistinctIds(es: seq<Entry>) {
    forall j, k :: 0 <= j < k < |es| ==> es[j].id != es[k].id
  }

  function IdSet(es: seq<Entry>): set<int> {
    set k | 0 <= k < |es| :: es[k].id
  }

  /** One step of the forEach: append e unless its id is already held. */
  function BorrowOne(held: seq<Entry>, e: Entry): seq<Entry> {
    if HasId(held, e.id) then held else held + [e]
  }

  /** The whole forEach over the request, left to right. */
  function BorrowAll(held: seq<Entry>, req: seq<Entry>): seq<Entry>
    decreases |req|
  {
    if req == [] then held else BorrowOne(BorrowAll(held, req[..|req| - 1]), req[|req| - 1])
  }

  /** Reference definition of what a borrow adds: each requested entry whose id is
      neither held nor requested earlier, in request order (first occurrence wins). */
  function Fresh(held: seq<Entry>, req: seq<Entry>): seq<Entry>
    decreases |req|
  {
    if req == [] then []
    else
      var init, e := req[..|req| - 1], req[|req| - 1];
      if HasId(held, e.id) || HasId(init, e.id) then Fresh(held, init) else Fresh(held, init) + [e]
  }

  lemma HasIdAppend(a: seq<Entry>, b: seq<Entry>, id: int)
    ensures HasId(a + b, id) <==> HasId(a, id) || HasId(b, id)
  {
    if HasId(b, id) {
      var k :| 0 <= k < |b| && b[k].id == id;
      assert (a + b)[|a| + k].id == id;
    }
    if HasId(a, id) {
      var k :| 0 <= k < |a| && a[k].id == id;
      assert (a + b)[k].id == id;
    }
    if HasId(a + b, id) {
      var k :| 0 <= k < |a + b| && (a + b)[k].id == id;
      if k >= |a| { assert b[k - |a|].id == id; }
    }
  }

  lemma HasIdInit(req: seq<Entry>, id: int)
    requires req != []
    ensures HasId(req, id) <==> HasId(req[..|req| - 1], id) || req[|req| - 1].id == id
  {
    assert req == req[..|req| - 1] + [req[|req| - 1]];
    HasIdAppend(req[..|req| - 1], [req[|req| - 1]], id);
  }

  /** A borrow adds exactly the fresh entries after what was held: the old list is kept
      as a prefix, and the new entries follow in order of first request. */
  lemma {:induction false} BorrowAllIsFresh(held: seq<Entry>, req: seq<Entry>)
    ensures BorrowAll(held, req) == held + Fresh(held, req)
    decreases |req|
  {
    if req != [] {
      var init, e := req[..|req| - 1], req[|req| - 1];
      BorrowAllIsFresh(held, init);
      BorrowAllHasId(held, init, e.id);
    }
  }

  /** After a borrow, an id is held iff it was held before or was requested. */
  lemma {:induction false} BorrowAllHasId(held: seq<Entry>, req: seq<Entry>, id: int)
    ensures HasId(BorrowAll(held, req), id) <==> HasId(held, id) || HasId(req, id)
    decreases |req|
  {
    if req != [] {
      var init, e := req[..|req| - 1], req[|req| - 1];
      BorrowAllHasId(held, init, id);
      HasIdInit(req, id);
      var mid := BorrowAll(held, init);
      if !HasId(mid, e.id) {
        HasIdAppend(mid, [e], id);
        assert HasId([e], id) <==> e.id == id by {
          if e.id == id { assert [e][0].id == id; }
        }
      }
    }
  }

  /** Every requested id is held afterwards. */
  lemma BorrowAllCovers(held: seq<Entry>, req: seq<Entry>)
    ensures forall i :: 0 <= i < |req| ==> HasId(BorrowAll(held, req), req[i].id)
  {
    forall i | 0 <= i < |req|
      ensures HasId(BorrowAll(held, req), req[i].id)
    {
      BorrowAllHasId(held, req, req[i].id);
    }
  }

  /** Distinct ids stay distinct, even when the request repeats an id. */
  lemma {:induction false} BorrowAllDistinct(held: seq<Entry>, req: seq<Entry>)
    requires DistinctIds(held)
    ensures DistinctIds(BorrowAll(held, req))
    decreases |req|
  {
    if req != [] {
      var init, e := req[..|req| - 1], req[|req| - 1];
      BorrowAllDistinct(held, init);
      var mid := BorrowAll(held, init);
      if !HasId(mid, e.id) {
        var r := mid + [e];
        forall j, k | 0 <= j < k < |r| ensures r[j].id != r[k].id {
          if k == |mid| {
            assert r[j] == mid[j];
          }
        }
      }
    }
  }

  /** Every appended entry is one of the requested entries, id and title alike. */
  lemma {:induction false} FreshFromRequest(held: seq<Entry>, req: seq<Entry>)
    ensures |Fresh(held, req)| <= |req|
    ensures forall e :: e in Fresh(held, req) ==> e in req && !HasId(held, e.id)
    decreases |req|
  {
    if req != [] {
      var init := req[..|req| - 1];
      FreshFromRequest(held, init);
      assert forall e :: e in init ==> e in req;
    }
  }

  /** Borrowing the same request again changes nothing. */
  lemma BorrowAllIdempotent(held: seq<Entry>, req: seq<Entry>)
    ensures BorrowAll(BorrowAll(held, req), req) == BorrowAll(held, req)
  {
    var once := BorrowAll(held, req);
    BorrowAllCovers(held, req);
    BorrowHeldNoop(once, req);
  }

  /** A request whose every id is already held leaves the list as it is. */
  lemma {:induction false} BorrowHeldNoop(held: seq<Entry>, req: seq<Entry>)
    requires forall i :: 0 <= i < |req| ==> HasId(held, req[i].id)
    ensures BorrowAll(held, req) == held
    decreases |req|
  {
    if req != [] {
      BorrowHeldNoop(held, req[..|req| - 1]);
    }
  }

  lemma HasIdIdSet(es: seq<Entry>, id: int)
    ensures HasId(es, id) <==> id in IdSet(es)
  {
    if id in IdSet(es) {
      var k :| 0 <= k < |es| && es[k].id == id;
    }
  }

  lemma IdSetInit(req: seq<Entry>)
    requires req != []
    ensures IdSet(req) == IdSet(req[..|req| - 1]) + {req[|req| - 1].id}
  {
    var init := req[..|req| - 1];
    forall id ensures id in IdSet(req) <==> id in IdSet(init) + {req[|req| - 1].id} {
      HasIdIdSet(req, id);
      HasIdIdSet(init, id);
      HasIdInit(req, id);
    }
  }

  /** The list grows by exactly the number of distinct requested ids not held before. */
  lemma {:induction false} BorrowAllGrowth(held: seq<Entry>, req: seq<Entry>)
    ensures |BorrowAll(held, req)| == |held| + |IdSet(req) - IdSet(held)|
    ensures |BorrowAll(held, req)| <= |held| + |req|
    decreases |req|
  {
    if req == [] {
      assert IdSet(req) == {};
    } else {
      var init, e := req[..|req| - 1], req[|req| - 1];
      BorrowAllGrowth(held, init);
      BorrowAllHasId(held, init, e.id);
      IdSetInit(req);
      HasIdIdSet(held, e.id);
      HasIdIdSet(init, e.id);
      if HasId(held, e.id) || HasId(init, e.id) {
        assert IdSet(req) - IdSet(held) == IdSet(init) - IdSet(held);
      } else {
        assert IdSet(req) - IdSet(held) == (IdSet(init) - IdSet(held)) + {e.id};
      }
    }
  }

  /** The catalogue holds the ids 1..5, each once. */
  lemma CatalogueIds()
    ensures DistinctIds(Catalogue)
    ensures forall i :: 0 <= i < |Catalogue| ==> Catalogue[i].id == i + 1
  {
  }
}
