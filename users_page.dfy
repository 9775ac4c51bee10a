/** The users list page: the shared list state over `/users`, and what the
    signed-in viewer sees of it. E-mail addresses, the edit and delete
    actions and the "Add User" links are for administrators only. */
module UsersPage {
  import opened Wrappers
  import opened Js
  import opened Http
  import opened Lists

  const Collection := "users"

  /** The page on mount, before its fetch. */
  method NewPage() returns (page: ListPage)
    ensures fresh(page) && page.collection == Collection && page.items == [] && page.loading
  {
    page := new ListPage(Collection);
  }

  /** The table's column headings for a viewer. */
  function Columns(viewer: Json): (columns: seq<string>)
    ensures "Email" in columns <==> IsAdmin(viewer)
    ensures "Actions" in columns <==> IsAdmin(viewer)
    ensures |columns| == if IsAdmin(viewer) then 5 else 3
    ensures columns[0] == "Name" && "Fitness Level" in columns && "Created At" in columns
  {
    if IsAdmin(viewer) then ["Name", "Email", "Fitness Level", "Created At", "Actions"]
    else ["Name", "Fitness Level", "Created At"]
  }

  /** One table cell: a property shown as it is, the creation date (kept
      as the raw value; its locale formatting is not modelled), or the
      actions cell with the edit link and the DELETE its button sends. */
  datatype Cell = Shown(value: Json) | CreatedAt(raw: Json) | Actions(editPath: string, deletion: Request)

  /** The cells of one row for a viewer, one per column; `None` is the
      TypeError of rendering a null row. The e-mail and actions cells
      appear for administrators only. */
  function Row(viewer: Json, user: Json): (cells: Option<seq<Cell>>)
    ensures cells.None? <==> !Readable(user)
    ensures cells.Some? ==> |cells.value| == |Columns(viewer)|
    ensures cells.Some? ==> cells.value[0] == Shown(OptionalProp(user, "name"))
    ensures cells.Some? && IsAdmin(viewer) ==>
              && cells.value[1] == Shown(OptionalProp(user, "email"))
              && cells.value[2] == Shown(OptionalProp(user, "fitness_level"))
              && cells.value[3] == CreatedAt(OptionalProp(user, "created_at"))
              && cells.value[4] == Actions("/users/edit/" + ToText(OptionalProp(user, "id")),
                                           DeleteRequest(Collection, OptionalProp(user, "id")))
    ensures cells.Some? && !IsAdmin(viewer) ==>
              cells.value == [Shown(OptionalProp(user, "name")), Shown(OptionalProp(user, "fitness_level")),
                              CreatedAt(OptionalProp(user, "created_at"))]
    // Column by column, the cell is the heading's.
    ensures cells.Some? ==> forall i :: 0 <= i < |cells.value| ==>
              && (Columns(viewer)[i] == "Name" ==> cells.value[i] == Shown(OptionalProp(user, "name")))
              && (Columns(viewer)[i] == "Email" ==> cells.value[i] == Shown(OptionalProp(user, "email")))
              && (Columns(viewer)[i] == "Fitness Level" ==> cells.value[i] == Shown(OptionalProp(user, "fitness_level")))
              && (Columns(viewer)[i] == "Created At" <==> cells.value[i].CreatedAt?)
              && (Columns(viewer)[i] == "Actions" <==> cells.value[i].Actions?)
  {
    if !Readable(user) then None
    else
      var name := Shown(OptionalProp(user, "name"));
      var level := Shown(OptionalProp(user, "fitness_level"));
      var created := CreatedAt(OptionalProp(user, "created_at"));
      if IsAdmin(viewer) then
        var id := OptionalProp(user, "id");
        Some([name, Shown(OptionalProp(user, "email")), level, created,
              Actions("/users/edit/" + ToText(id), DeleteRequest(Collection, id))])
      else Some([name, level, created])
  }

  /** The "Add User" link in the header. */
  predicate ShowsAddUser(viewer: Json) {
    IsAdmin(viewer)
  }

  /** The text of the empty state. */
  function EmptyMessage(viewer: Json): (text: string)
    ensures IsAdmin(viewer) <==> text == "Get started by adding your first user!"
  {
    if IsAdmin(viewer) then "Get started by adding your first user!" else "No users to display at the moment."
  }
}
