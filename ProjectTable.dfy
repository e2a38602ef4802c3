/**
 * The project table (components/projects/ProjectTable.tsx): which of spinner,
 * empty state or rows it shows, and the sortable column headers. The table
 * never reorders: sorting belongs to whoever passes `sortField`/`onSort`.
 */
module ProjectTable {
  import opened Options
  import opened Types
  import opened ProjectCard

  /** `keyof Project` */
  datatype Field = Id | Name | Status | Deadline | AssignedTeamMember | Budget | CreatedAt | UpdatedAt

  datatype Direction = Asc | Desc

  /** The sortable columns, left to right. */
  const Columns: seq<Field> := [Name, Status, Deadline, AssignedTeamMember, Budget]

  /** A column header: inert when the parent passes no `onSort`, otherwise clickable with two arrows. */
  datatype Header = Inert(field: Field) | Sortable(field: Field, upLit: bool, downLit: bool)

  /** `sortDirection` defaults to ascending when the prop is left out. */
  function DirectionOrDefault(d: Option<Direction>): Direction {
    if d.Some? then d.value else Asc
  }

  /** `SortableHeader`: the arrow for the current direction is lit on the current sort column only. */
  function SortableHeader(field: Field, hasOnSort: bool, sortField: Option<Field>, sortDirection: Option<Direction>): (h: Header)
    ensures h.field == field
    ensures h.Inert? <==> !hasOnSort
    ensures h.Sortable? ==> (h.upLit <==> sortField == Some(field) && DirectionOrDefault(sortDirection) == Asc)
    ensures h.Sortable? ==> (h.downLit <==> sortField == Some(field) && sortDirection == Some(Desc))
  {
    if !hasOnSort then Inert(field)
    else
      var isActive := sortField == Some(field);
      var direction := DirectionOrDefault(sortDirection);
      Sortable(field, isActive && direction == Asc, isActive && direction == Desc)
  }

  /** At most one arrow is lit, and none off the sort column. */
  lemma AtMostOneArrow(field: Field, hasOnSort: bool, sortField: Option<Field>, sortDirection: Option<Direction>)
    ensures var h := SortableHeader(field, hasOnSort, sortField, sortDirection);
      h.Sortable? ==> !(h.upLit && h.downLit) && (sortField != Some(field) ==> !h.upLit && !h.downLit)
  {
  }

  /** What a click on a header passes to `onSort`: nothing for an inert header, else exactly its own field. */
  function Click(h: Header): (request: Option<Field>)
    ensures request.Some? <==> h.Sortable?
    ensures request.Some? ==> request.value == h.field
  {
    if h.Sortable? then Some(h.field) else None
  }

  /** The header row, one header per sortable column in order. */
  function Headers(hasOnSort: bool, sortField: Option<Field>, sortDirection: Option<Direction>): (hs: seq<Header>)
    ensures |hs| == |Columns|
    ensures forall i :: 0 <= i < |hs| ==> hs[i] == SortableHeader(Columns[i], hasOnSort, sortField, sortDirection)
  {
    seq(|Columns|, i requires 0 <= i < |Columns| => SortableHeader(Columns[i], hasOnSort, sortField, sortDirection))
  }

  /** Clicking the i-th header of a sortable table asks to sort by the i-th column, and only that. */
  lemma ClickRequestsOwnColumn(sortField: Option<Field>, sortDirection: Option<Direction>, i: nat)
    requires i < |Columns|
    ensures Click(Headers(true, sortField, sortDirection)[i]) == Some(Columns[i])
  {
  }

  /** A desktop row: the status badge and the Edit/Delete buttons' intents. */
  datatype Row = Row(project: Project, badge: Variant, onEditClick: Intent, onDeleteClick: Intent)

  function RowOf(p: Project): (r: Row)
    ensures r.project == p && r.badge == StatusVariant(StatusText(p.status))
    ensures r.onEditClick == EditIntent(p) && r.onDeleteClick == DeleteIntent(p.id)
  {
    Row(p, StatusVariant(StatusText(p.status)), EditIntent(p), DeleteIntent(p.id))
  }

  /** What the table renders: the desktop rows and the mobile cards are two layouts of the same list. */
  datatype Display = Spinner | NoProjects | Rows(rows: seq<Row>, cards: seq<CardView>)

  /** Loading beats empty, empty beats rows; rows and cards follow the input order, one per project. */
  function Show(projects: seq<Project>, isLoading: bool): (d: Display)
    ensures d.Spinner? <==> isLoading
    ensures d.NoProjects? <==> !isLoading && projects == []
    ensures d.Rows? ==> |d.rows| == |projects| && |d.cards| == |projects|
    ensures d.Rows? ==> forall i :: 0 <= i < |projects| ==> d.rows[i] == RowOf(projects[i]) && d.cards[i] == Card(projects[i])
  {
    if isLoading then Spinner
    else if |projects| == 0 then NoProjects
    else Rows(seq(|projects|, i requires 0 <= i < |projects| => RowOf(projects[i])),
              seq(|projects|, i requires 0 <= i < |projects| => Card(projects[i])))
  }

  /** Whichever layout is on screen, a project's Edit and Delete buttons ask for the same thing. */
  lemma LayoutsAgree(projects: seq<Project>, isLoading: bool, i: nat)
    requires Show(projects, isLoading).Rows? && i < |projects|
    ensures var d := Show(projects, isLoading);
      d.rows[i].onEditClick == d.cards[i].onEditClick && d.rows[i].onDeleteClick == d.cards[i].onDeleteClick
      && d.rows[i].badge == d.cards[i].badge
  {
  }
}
