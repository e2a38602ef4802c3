/** The mobile project card (components/projects/ProjectCard.tsx): its badge and what its two buttons hand back. */
module ProjectCard {
  import opened Types

  /** The badge variants a status can select. */
  datatype Variant = Success | Warning | Default

  /** `getStatusVariant`: total over every string, not just the three statuses. */
  function StatusVariant(status: string): (v: Variant)
    ensures v == Success <==> status == "active"
    ensures v == Warning <==> status == "on hold"
    ensures v == Default <==> status != "active" && status != "on hold"
  {
    if status == "active" then Success
    else if status == "on hold" then Warning
    else Default
  }

  /** On the three statuses a project can have: active is success, on hold is warning, completed falls to default. */
  lemma StatusBadges()
    ensures StatusVariant(StatusText(Active)) == Success
    ensures StatusVariant(StatusText(OnHold)) == Warning
    ensures StatusVariant(StatusText(Completed)) == Default
  {
  }

  /** What a button click asks the parent to do: edit this record, or delete the project with this id. */
  datatype Intent = EditIntent(project: Project) | DeleteIntent(id: int)

  datatype CardView = CardView(project: Project, badge: Variant, onEditClick: Intent, onDeleteClick: Intent)

  /** The card for `p`: Edit passes the whole record, Delete only its id. */
  function Card(p: Project): (c: CardView)
    ensures c.project == p && c.badge == StatusVariant(StatusText(p.status))
    ensures c.onEditClick == EditIntent(p) && c.onDeleteClick == DeleteIntent(p.id)
  {
    CardView(p, StatusVariant(StatusText(p.status)), EditIntent(p), DeleteIntent(p.id))
  }
}
