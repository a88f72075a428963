/** The Books screen: the book list with its presence toggle, the two-step
    simulated scan, and the required-books statistics with their banners. */
module Books {
  import opened Common
  import opened JsNumber
  import opened BookItem

  /** No two books share an id. */
  ghost predicate UniqueIds(s: seq<Book>) {
    forall i, j :: 0 <= i < j < |s| ==> s[i].id != s[j].id
  }

  predicate HasId(s: seq<Book>, id: string) {
    exists i :: 0 <= i < |s| && s[i].id == id
  }

  /** `books.map(book => book.id === id ? { ...book, isPresent: !book.isPresent } : book)`:
      only the presence flag of matching books changes. */
  function Toggled(s: seq<Book>, id: string): (r: seq<Book>)
    ensures |r| == |s|
    ensures forall i :: 0 <= i < |s| ==>
      r[i] == if s[i].id == id then s[i].(isPresent := !s[i].isPresent) else s[i]
  {
    if s == [] then []
    else [if s[0].id == id then s[0].(isPresent := !s[0].isPresent) else s[0]] + Toggled(s[1..], id)
  }

  /** The index `books.find(b => b.id === id)` stops at: the first book with
      that id. */
  function FindIndexById(s: seq<Book>, id: string): (r: Option<nat>)
    ensures r.None? <==> !HasId(s, id)
    ensures r.Some? ==> (r.value < |s| && s[r.value].id == id &&
      forall j :: 0 <= j < r.value ==> s[j].id != id)
  {
    if s == [] then None
    else if s[0].id == id then Some(0)
    else match FindIndexById(s[1..], id)
      case None => None
      case Some(k) => Some(k + 1)
  }

  /** `books.find(b => b.id === id)`: the first book with that id. */
  function FindById(s: seq<Book>, id: string): (r: Option<Book>)
    ensures r.None? <==> !HasId(s, id)
    ensures r.Some? ==> r.value.id == id
    ensures r.Some? ==> exists i :: (0 <= i < |s| && s[i] == r.value &&
      forall j :: 0 <= j < i ==> s[j].id != id)
  {
    match FindIndexById(s, id)
    case None => None
    case Some(i) => Some(s[i])
  }

  /** The toast after a toggle, chosen from the list as it was before: none
      for an unknown id, otherwise "Removed from bag" when the book was in
      the bag and "Added to bag" when it was not. */
  function ToggleToast(s: seq<Book>, id: string): (t: Option<Toast>)
    ensures t.None? <==> !HasId(s, id)
    ensures t.Some? ==> (FindById(s, id).Some? &&
      t.value.title == Some(if FindById(s, id).value.isPresent then "Removed from bag" else "Added to bag") &&
      t.value.description == FindById(s, id).value.title &&
      t.value.durationMs == 2000)
  {
    match FindById(s, id)
    case None => None
    case Some(b) =>
      Some(Toast(Some(if b.isPresent then "Removed from bag" else "Added to bag"), b.title, 2000))
  }

  /** Toggling an id no book has changes nothing and raises no toast. */
  lemma ToggleUnknownId(s: seq<Book>, id: string)
    requires !HasId(s, id)
    ensures Toggled(s, id) == s
    ensures ToggleToast(s, id).None?
  {
  }

  /** A second toggle of the same id restores the list. */
  lemma {:induction false} ToggleTwice(s: seq<Book>, id: string)
    ensures Toggled(Toggled(s, id), id) == s
  {
    var r := Toggled(Toggled(s, id), id);
    forall i | 0 <= i < |s|
      ensures r[i] == s[i]
    {
    }
  }

  /** A toggle keeps every id in its place, so ids stay unique. */
  lemma ToggleKeepsIds(s: seq<Book>, id: string)
    ensures forall i :: 0 <= i < |s| ==> Toggled(s, id)[i].id == s[i].id
    ensures UniqueIds(s) ==> UniqueIds(Toggled(s, id))
  {
  }

  /** `books.find(b => b.isRequired && !b.isPresent)`, as an index. */
  function FirstMissing(s: seq<Book>): (r: Option<nat>)
    ensures r.None? <==> forall i :: 0 <= i < |s| ==> !IsMissing(s[i])
    ensures r.Some? ==> (r.value < |s| && IsMissing(s[r.value]) &&
      forall j :: 0 <= j < r.value ==> !IsMissing(s[j]))
  {
    if s == [] then None
    else if IsMissing(s[0]) then Some(0)
    else match FirstMissing(s[1..])
      case None => None
      case Some(k) => Some(k + 1)
  }

  /** `books.map(book => book.id === id ? { ...book, isPresent: true } : book)`. */
  function MarkedPresent(s: seq<Book>, id: string): (r: seq<Book>)
    ensures |r| == |s|
    ensures forall i :: 0 <= i < |s| ==>
      r[i] == if s[i].id == id then s[i].(isPresent := true) else s[i]
  {
    if s == [] then []
    else [if s[0].id == id then s[0].(isPresent := true) else s[0]] + MarkedPresent(s[1..], id)
  }

  /** The list the scan leaves: the first missing book of the scanned list
      marked present, or the scanned list itself. */
  function ScannedBooks(s: seq<Book>): (r: seq<Book>)
    ensures FirstMissing(s).None? ==> r == s
    ensures |r| == |s|
  {
    match FirstMissing(s)
    case None => s
    case Some(i) => MarkedPresent(s, s[i].id)
  }

  function ScanToast(s: seq<Book>): (t: Toast)
    ensures FirstMissing(s).None? <==> t == Toast(Some("Scan completed"), "No new books detected", 3000)
    ensures FirstMissing(s).Some? ==>
      t == Toast(Some("Book scanned!"), s[FirstMissing(s).value].title + " added to your backpack", 3000)
  {
    match FirstMissing(s)
    case None => Toast(Some("Scan completed"), "No new books detected", 3000)
    case Some(i) => Toast(Some("Book scanned!"), s[i].title + " added to your backpack", 3000)
  }

  /** With unique ids the scan changes exactly one book, the first missing
      one, and only its presence flag. */
  lemma {:induction false} ScanMarksFirstMissing(s: seq<Book>)
    requires UniqueIds(s)
    requires FirstMissing(s).Some?
    ensures ScannedBooks(s) == s[FirstMissing(s).value := s[FirstMissing(s).value].(isPresent := true)]
  {
    var i := FirstMissing(s).value;
    var r := ScannedBooks(s);
    forall j | 0 <= j < |s|
      ensures r[j] == s[i := s[i].(isPresent := true)][j]
    {
      if j != i {
        assert s[j].id != s[i].id;
      }
    }
  }

  /** The scan keeps every id in its place, so ids stay unique. */
  lemma ScanKeepsIds(s: seq<Book>)
    ensures forall i :: 0 <= i < |s| ==> ScannedBooks(s)[i].id == s[i].id
    ensures UniqueIds(s) ==> UniqueIds(ScannedBooks(s))
  {
  }

  /** `books.filter(book => book.isRequired).length`. */
  function RequiredCount(s: seq<Book>): (n: nat)
    ensures n <= |s|
  {
    if s == [] then 0 else (if s[0].isRequired then 1 else 0) + RequiredCount(s[1..])
  }

  /** `requiredBooks.filter(book => book.isPresent).length`. */
  function PresentRequiredCount(s: seq<Book>): (n: nat)
    ensures n <= RequiredCount(s)
  {
    if s == [] then 0
    else (if s[0].isRequired && s[0].isPresent then 1 else 0) + PresentRequiredCount(s[1..])
  }

  /** The number of required books not in the bag. */
  function MissingCount(s: seq<Book>): (n: nat)
    ensures n == 0 <==> forall i :: 0 <= i < |s| ==> !IsMissing(s[i])
  {
    if s == [] then 0 else (if IsMissing(s[0]) then 1 else 0) + MissingCount(s[1..])
  }

  /** The three counts go part by part: a list's count is the sum of its
      parts' counts. With `BookCountsSingle` this fixes each count as the
      number of books it filters. */
  lemma {:induction false} BookCountsAppend(a: seq<Book>, b: seq<Book>)
    ensures RequiredCount(a + b) == RequiredCount(a) + RequiredCount(b)
    ensures PresentRequiredCount(a + b) == PresentRequiredCount(a) + PresentRequiredCount(b)
    ensures MissingCount(a + b) == MissingCount(a) + MissingCount(b)
  {
    if a == [] {
      assert a + b == b;
    } else {
      assert (a + b)[1..] == a[1..] + b;
      BookCountsAppend(a[1..], b);
    }
  }

  /** One book counts as required, as present and required, and as missing
      exactly under its own flags. */
  lemma BookCountsSingle(b: Book)
    ensures RequiredCount([b]) == if b.isRequired then 1 else 0
    ensures PresentRequiredCount([b]) == if b.isRequired && b.isPresent then 1 else 0
    ensures MissingCount([b]) == if IsMissing(b) then 1 else 0
  {
  }

  /** "You're missing <required - present> required book(s)" counts exactly
      the missing books. */
  lemma {:induction false} RequiredSplits(s: seq<Book>)
    ensures RequiredCount(s) - PresentRequiredCount(s) == MissingCount(s)
  {
    if s != [] {
      RequiredSplits(s[1..]);
    }
  }

  /** `presentRequiredBooks.length / requiredBooks.length * 100`; 0 / 0 is
      NaN when no book is required. */
  function Progress(s: seq<Book>): (p: Num)
    ensures RequiredCount(s) == 0 <==> p.NaN?
  {
    Scale(Div(PresentRequiredCount(s) as real, RequiredCount(s) as real), 100.0)
  }

  /** The amber "missing" banner, `progressPercentage < 100`: it shows
      exactly when some book is required and one of them is missing. */
  function ShowMissingBanner(s: seq<Book>): (show: bool)
    ensures show <==> RequiredCount(s) > 0 && MissingCount(s) > 0
  {
    RequiredSplits(s);
    if RequiredCount(s) > 0 then
      DivAtLeast(PresentRequiredCount(s) as real, RequiredCount(s) as real, 1.0);
      Lt(Progress(s), 100.0)
    else
      Lt(Progress(s), 100.0)
  }

  /** The green "all present" banner, `progressPercentage === 100`: it shows
      exactly when some book is required and none is missing. */
  function ShowAllPresentBanner(s: seq<Book>): (show: bool)
    ensures show <==> RequiredCount(s) > 0 && MissingCount(s) == 0
  {
    RequiredSplits(s);
    if RequiredCount(s) > 0 then
      DivAtLeast(PresentRequiredCount(s) as real, RequiredCount(s) as real, 1.0);
      DivAtMost(PresentRequiredCount(s) as real, RequiredCount(s) as real, 1.0);
      Eq(Progress(s), 100.0)
    else
      Eq(Progress(s), 100.0)
  }

  /** With at least one required book the progress is a percentage in
      [0, 100], it is 100 exactly when no required book is missing, and
      exactly one banner shows. With no required book the progress is NaN and
      neither banner shows. */
  lemma {:induction false} ProgressMeaning(s: seq<Book>)
    ensures RequiredCount(s) > 0 ==> Progress(s).Finite? && 0.0 <= Progress(s).v <= 100.0
    ensures RequiredCount(s) > 0 ==> (Eq(Progress(s), 100.0) <==> MissingCount(s) == 0)
    ensures RequiredCount(s) > 0 ==> (ShowMissingBanner(s) <==> !ShowAllPresentBanner(s))
    ensures RequiredCount(s) == 0 ==> !ShowMissingBanner(s) && !ShowAllPresentBanner(s)
  {
    RequiredSplits(s);
    var req := RequiredCount(s) as real;
    var pre := PresentRequiredCount(s) as real;
    if RequiredCount(s) > 0 {
      DivAtLeast(pre, req, 0.0);
      DivAtLeast(pre, req, 1.0);
      DivAtMost(pre, req, 1.0);
    }
  }

  /** The books the screen starts with: five required, four of them in the
      bag, and one optional book. */
  const Seed: seq<Book> := [
    Book("1", "Mathematics Textbook", "John Smith", true, false),
    Book("2", "Physics Fundamentals", "Robert Johnson", true, true),
    Book("3", "History of Science", "Mary Williams", true, true),
    Book("4", "English Literature", "Sarah Brown", true, true),
    Book("5", "Programming Basics", "David Miller", true, true),
    Book("6", "Art History", "Elizabeth Taylor", false, false)
  ]

  /** The seed shows 4 of 5 books, 80 % and the missing banner. */
  lemma SeedStartsAtEighty()
    ensures RequiredCount(Seed) == 5 && PresentRequiredCount(Seed) == 4
    ensures Progress(Seed) == Finite(80.0) && ShowMissingBanner(Seed)
  {
    CountsOfSeed(Seed);
  }

  /** A scan of the seed will bring in the mathematics textbook, its first
      entry. */
  lemma SeedScansMathematicsFirst()
    ensures FirstMissing(Seed) == Some(0)
    ensures ScanToast(Seed) == Toast(Some("Book scanned!"), "Mathematics Textbook" + " added to your backpack", 3000)
  {
    assert IsMissing(Seed[0]);
  }

  /** The seed's ids "1" to "6" are unique. */
  lemma SeedIdsUnique()
    ensures UniqueIds(Seed)
  {
    forall i, j | 0 <= i < j < |Seed|
      ensures Seed[i].id != Seed[j].id
    {
      assert Seed[i].id[0] as int == '1' as int + i;
      assert Seed[j].id[0] as int == '1' as int + j;
    }
  }

  /** One scan of the seed reaches 100 % and the all-present banner. */
  lemma SeedScanReachesHundred()
    ensures Progress(ScannedBooks(Seed)) == Finite(100.0)
    ensures ShowAllPresentBanner(ScannedBooks(Seed))
  {
    ScanCompletesSeedShape(Seed);
  }

  /** A scan of a seed-shaped list whose one missing book comes first
      completes it. */
  lemma ScanCompletesSeedShape(s: seq<Book>)
    requires |s| == 6 && UniqueIds(s)
    requires forall i :: 0 <= i < 5 ==> s[i].isRequired
    requires forall i :: 1 <= i < 5 ==> s[i].isPresent
    requires !s[5].isRequired && !s[5].isPresent
    requires !s[0].isPresent
    ensures Progress(ScannedBooks(s)) == Finite(100.0)
  {
    assert FirstMissing(s) == Some(0);
    ScanMarksFirstMissing(s);
    CountsOfSeed(s[0 := s[0].(isPresent := true)]);
  }

  /** The counts of a six-book list shaped like the seed: the first five
      required, the last optional and absent, books two to five present. */
  lemma CountsOfSeed(s: seq<Book>)
    requires |s| == 6
    requires forall i :: 0 <= i < 5 ==> s[i].isRequired
    requires forall i :: 1 <= i < 5 ==> s[i].isPresent
    requires !s[5].isRequired && !s[5].isPresent
    ensures RequiredCount(s) == 5
    ensures PresentRequiredCount(s) == if s[0].isPresent then 5 else 4
    ensures Progress(s) == Finite(if s[0].isPresent then 100.0 else 80.0)
  {
    assert s[5..][1..] == [];
    assert s[4..][1..] == s[5..];
    assert s[3..][1..] == s[4..];
    assert s[2..][1..] == s[3..];
    assert s[1..][1..] == s[2..];
    assert RequiredCount(s[5..]) == 0 && PresentRequiredCount(s[5..]) == 0;
    assert RequiredCount(s[4..]) == 1 && PresentRequiredCount(s[4..]) == 1;
    assert RequiredCount(s[3..]) == 2 && PresentRequiredCount(s[3..]) == 2;
    assert RequiredCount(s[2..]) == 3 && PresentRequiredCount(s[2..]) == 3;
    assert RequiredCount(s[1..]) == 4 && PresentRequiredCount(s[1..]) == 4;
  }

  /** The Books screen's state. */
  class BooksScreen {
    var books: seq<Book>
    var scanning: bool

    ghost predicate Valid()
      reads this
    {
      UniqueIds(books)
    }

    constructor ()
      ensures Valid()
      ensures books == Seed && !scanning
    {
      books := Seed;
      scanning := false;
      SeedIdsUnique();
    }

    /** The scan button is disabled exactly while a scan is running. */
    function ScanButtonDisabled(): (disabled: bool)
      reads this
      ensures disabled <==> scanning
    {
      scanning
    }

    method TogglePresence(id: string) returns (toast: Option<Toast>)
      requires Valid()
      modifies this
      ensures Valid()
      ensures books == Toggled(old(books), id)
      ensures toast == ToggleToast(old(books), id)
      ensures scanning == old(scanning)
    {
      toast := ToggleToast(books, id);
      ToggleKeepsIds(books, id);
      books := Toggled(books, id);
    }

    /** Sets the flag and hands back the list the delayed completion will
        work on, as the list was when the scan started. */
    method StartScan() returns (snapshot: seq<Book>)
      requires Valid()
      modifies this
      ensures Valid()
      ensures scanning && ScanButtonDisabled()
      ensures books == old(books) && snapshot == books
    {
      scanning := true;
      snapshot := books;
    }

    /** The delayed completion, working on the `snapshot` `StartScan` handed
        back. When the snapshot has a missing book, the list becomes the
        snapshot with that book marked present, whatever toggles happened
        since the scan started. When it has none, the list is left as it is
        now. Either way the flag is cleared. */
    method CompleteScan(snapshot: seq<Book>) returns (toast: Toast)
      requires Valid() && UniqueIds(snapshot)
      modifies this
      ensures Valid()
      ensures FirstMissing(snapshot).Some? ==> books == ScannedBooks(snapshot)
      ensures FirstMissing(snapshot).None? ==> books == old(books)
      ensures !scanning && !ScanButtonDisabled()
      ensures toast == ScanToast(snapshot)
    {
      if FirstMissing(snapshot).Some? {
        ScanKeepsIds(snapshot);
        books := ScannedBooks(snapshot);
      }
      toast := ScanToast(snapshot);
      scanning := false;
    }
  }
}
