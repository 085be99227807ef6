/**
 * The "order ready" e-mail preview (components/NotificationModal.tsx):
 * the subject line and the optional notes section.  Its order total is
 * the same text as the order list's and is `OrderList.CalculateOrderTotal`;
 * product names use the order list's lookup (`OrderList.ProductName`).
 */
module Notification {
  import opened Types

  /** `id.slice(-6)`: the last six characters, or the whole id when it is shorter. */
  function LastSix(id: string): (r: string)
    ensures |r| == Min(6, |id|)
    ensures r == id[|id| - |r|..]
  {
    if |id| <= 6 then id else id[|id| - 6..]
  }

  const SubjectHead: string := "Orden de Trabajo #"
  const SubjectMiddle: string := " lista para entrega - Paciente: "

  /** The subject: the head, the id's last six characters, the middle and the patient name. */
  function Subject(order: WorkOrder): (s: string)
    ensures |s| == |SubjectHead| + Min(6, |order.id|) + |SubjectMiddle| + |order.patientName|
    ensures s[..|SubjectHead|] == SubjectHead
    ensures s[|SubjectHead|..|SubjectHead| + Min(6, |order.id|)] == order.id[|order.id| - Min(6, |order.id|)..]
    ensures s[|SubjectHead| + Min(6, |order.id|)..|s| - |order.patientName|] == SubjectMiddle
    ensures s[|s| - |order.patientName|..] == order.patientName
  {
    var tail := LastSix(order.id);
    var s := SubjectHead + tail + SubjectMiddle + order.patientName;
    assert s[|SubjectHead|..|SubjectHead| + |tail|] == tail;
    assert s[|SubjectHead| + |tail|..|s| - |order.patientName|] == SubjectMiddle;
    s
  }

  /** The notes block: shown with the notes exactly when they are present and non-empty. */
  function NotesSection(order: WorkOrder): (r: Option<string>)
    ensures r.Some? <==> order.notes.Some? && order.notes.value != ""
    ensures r.Some? ==> r.value == order.notes.value
  {
    if order.notes.Some? && order.notes.value != "" then order.notes else None
  }
}
