/** The instructors list page: the shared list state over `/instructors`;
    the edit and delete controls and the "Add Instructor" links are for
    administrators only. */
module InstructorsPage {
  import opened Js
  import opened Lists

  const Collection := "instructors"

  /** The page on mount, before its fetch. */
  method NewPage() returns (page: ListPage)
    ensures fresh(page) && page.collection == Collection && page.items == [] && page.loading
  {
    page := new ListPage(Collection);
  }

  /** The edit and delete controls on each card. */
  predicate ShowsControls(viewer: Json) {
    IsAdmin(viewer)
  }

  /** The "Add Instructor" link in the header. */
  predicate ShowsAddInstructor(viewer: Json) {
    IsAdmin(viewer)
  }

  /** The text of the empty state. */
  function EmptyMessage(viewer: Json): (text: string)
    ensures IsAdmin(viewer) <==> text == "Get started by adding your first instructor!"
  {
    if IsAdmin(viewer) then "Get started by adding your first instructor!" else "No instructors available at the moment."
  }
}
