/** The status badge (src/components/StatusBadge.tsx): the label and colour classes
    for a status value. The value reaches the badge as a string, so anything that is
    not one of the five status literals takes the fallback. */
module StatusBadge {
  import opened Wrappers
  import opened MockData

  datatype StatusConfig = StatusConfig(labelText: string, className: string)

  const UnknownLabel := "Unknown"
  const GrayClasses := "bg-gray-100 text-gray-800 hover:bg-gray-100"

  /** The label shown for each status. */
  function StatusLabel(s: ClaimStatus): (text: string)
    ensures text != UnknownLabel
  {
    match s
    case Pending => "Pending"
    case InReview => "In Review"
    case Approved => "Approved"
    case Denied => "Denied"
    case Archived => "Archived"
  }

  /** The colour classes for each status: each status has its own colour, and
      archived is the one that shares the fallback's grey. */
  function StatusClasses(s: ClaimStatus): (c: string)
    ensures c == GrayClasses <==> s == Archived
  {
    match s
    case Pending => "bg-yellow-100 text-yellow-800 hover:bg-yellow-100"
    case InReview => "bg-blue-100 text-blue-800 hover:bg-blue-100"
    case Approved => "bg-green-100 text-green-800 hover:bg-green-100"
    case Denied => "bg-red-100 text-red-800 hover:bg-red-100"
    case Archived => GrayClasses
  }

  /** `getStatusConfig`: a status literal gets its own label and classes; any other
      value is labelled "Unknown" in grey. */
  function GetStatusConfig(status: string): (c: StatusConfig)
    ensures c.labelText == UnknownLabel <==> ParseStatus(status).None?
    ensures ParseStatus(status).Some? ==>
      c == StatusConfig(StatusLabel(ParseStatus(status).value), StatusClasses(ParseStatus(status).value))
    ensures ParseStatus(status).None? ==> c.className == GrayClasses
  {
    match ParseStatus(status)
    case Some(s) => StatusConfig(StatusLabel(s), StatusClasses(s))
    case None => StatusConfig(UnknownLabel, GrayClasses)
  }

  /** Different statuses show different labels. */
  lemma LabelsDistinct(a: ClaimStatus, b: ClaimStatus)
    ensures StatusLabel(a) == StatusLabel(b) <==> a == b
  {
  }

  /** Different statuses show different colours. */
  lemma ClassesDistinct(a: ClaimStatus, b: ClaimStatus)
    ensures StatusClasses(a) == StatusClasses(b) <==> a == b
  {
  }

  /** The badge of each status's own literal carries that status's label, never "Unknown". */
  lemma BadgeOfStatus(s: ClaimStatus)
    ensures GetStatusConfig(StatusName(s)).labelText == StatusLabel(s)
    ensures GetStatusConfig(StatusName(s)).labelText != UnknownLabel
  {
  }
}
