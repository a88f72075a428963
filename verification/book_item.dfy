/** One row of the book list: the book record, the status label and
    highlight chosen from its two flags, the toggle button's icon, and the
    forwarding of a click to the list's toggle handler. */
module BookItem {
  import opened Common

  datatype Book = Book(id: string, title: string, author: string, isRequired: bool, isPresent: bool)

  /** A required book that is not in the bag. */
  predicate IsMissing(b: Book) {
    b.isRequired && !b.isPresent
  }

  datatype StatusLabel = Missing | Present | NotInBag

  /** Exactly one label holds for every combination of the two flags. */
  function Label(b: Book): (l: StatusLabel)
    ensures l == Missing <==> b.isRequired && !b.isPresent
    ensures l == Present <==> b.isPresent
    ensures l == NotInBag <==> !b.isRequired && !b.isPresent
  {
    if b.isRequired && !b.isPresent then Missing
    else if b.isPresent then Present
    else NotInBag
  }

  /** The row border and the title turn red under the same condition, which
      is exactly the condition for the "Missing" label. */
  function IsHighlighted(b: Book): (red: bool)
    ensures red <==> Label(b) == Missing
    ensures red <==> IsMissing(b)
  {
    b.isRequired && !b.isPresent
  }

  datatype ButtonIcon = XIcon | CheckIcon

  /** The button offers to take a present book out and to put an absent one
      in. */
  function ToggleButtonIcon(b: Book): (i: ButtonIcon)
    ensures i == XIcon <==> b.isPresent
  {
    if b.isPresent then XIcon else CheckIcon
  }

  /** The id passed to the toggle handler, when there is one; with no
      handler the click does nothing. */
  function HandleToggle(b: Book, hasHandler: bool): (forwarded: Option<string>)
    ensures forwarded.Some? <==> hasHandler
    ensures forwarded.Some? ==> forwarded.value == b.id
  {
    if hasHandler then Some(b.id) else None
  }
}
